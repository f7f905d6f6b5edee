/** Mass cancellation removes exactly the selected orders, keeps the order of the others,
    and the bulk clear equals cancelling one by one. */
module MassCancelLaws {
  import opened Types
  import opened Seqs
  import opened Levels
  import opened Stp
  import opened Effects
  import opened Engine
  import opened SideLaws
  import opened CoreLaws
  import opened OpLaws
  import opened Runs

  /** The side with only the orders that satisfy `keep`, emptied levels removed. */
  function Purged(keep: Order -> bool, levels: seq<Level>): seq<Level> {
    if levels == [] then []
    else
      var queue := Filter(keep, levels[0].orders);
      (if queue == [] then [] else [Level(levels[0].price, queue)]) + Purged(keep, levels[1..])
  }

  function NotIn(ids: set<Id>): Order -> bool {
    (o: Order) => o.tag.id !in ids
  }

  function IdSet(ids: seq<Id>): set<Id> {
    set id | id in ids
  }

  lemma {:induction false} FilterSame<T>(p: T -> bool, q: T -> bool, s: seq<T>)
    requires forall x <- s :: p(x) == q(x)
    ensures Filter(p, s) == Filter(q, s)
  {
    if s != [] {
      assert s[0] in s && forall x <- s[1..] :: x in s;
      FilterSame(p, q, s[1..]);
    }
  }

  lemma {:induction false} FilterTwice<T>(p: T -> bool, q: T -> bool, r: T -> bool, s: seq<T>)
    requires forall x <- s :: r(x) <==> p(x) && q(x)
    ensures Filter(q, Filter(p, s)) == Filter(r, s)
  {
    if s != [] {
      assert s[0] in s && forall x <- s[1..] :: x in s;
      FilterTwice(p, q, r, s[1..]);
      FilterAppend(q, [s[0]], Filter(p, s[1..]));
      assert Filter(q, [s[0]]) == (if q(s[0]) then [s[0]] else []) by { assert [s[0]][1..] == []; }
    }
  }

  lemma {:induction false} PurgedSame(p: Order -> bool, q: Order -> bool, levels: seq<Level>)
    requires forall l <- levels :: forall o <- l.orders :: p(o) == q(o)
    ensures Purged(p, levels) == Purged(q, levels)
  {
    if levels != [] {
      assert levels[0] in levels && forall l <- levels[1..] :: l in levels;
      FilterSame(p, q, levels[0].orders);
      PurgedSame(p, q, levels[1..]);
    }
  }

  lemma {:induction false} PurgedAll(keep: Order -> bool, side: Side, levels: seq<Level>)
    requires SideOk(side, levels)
    requires forall l <- levels :: forall o <- l.orders :: keep(o)
    ensures Purged(keep, levels) == levels
  {
    if levels != [] {
      SideTail(side, levels);
      assert levels[0] in levels && forall l <- levels[1..] :: l in levels;
      FilterAll(keep, levels[0].orders);
      PurgedAll(keep, side, levels[1..]);
    }
  }

  lemma {:induction false} PurgedNone(keep: Order -> bool, levels: seq<Level>)
    requires forall l <- levels :: forall o <- l.orders :: !keep(o)
    ensures Purged(keep, levels) == []
  {
    if levels != [] {
      assert levels[0] in levels && forall l <- levels[1..] :: l in levels;
      FilterAll(keep, levels[0].orders);
      PurgedNone(keep, levels[1..]);
    }
  }

  lemma {:induction false} PurgedTwice(p: Order -> bool, q: Order -> bool, r: Order -> bool, levels: seq<Level>)
    requires forall o :: r(o) <==> p(o) && q(o)
    ensures Purged(q, Purged(p, levels)) == Purged(r, levels)
  {
    if levels != [] {
      FilterTwice(p, q, r, levels[0].orders);
      PurgedTwice(p, q, r, levels[1..]);
      var queue, rest := Filter(p, levels[0].orders), Purged(p, levels[1..]);
      if queue != [] {
        assert ([Level(levels[0].price, queue)] + rest)[1..] == rest;
      } else {
        assert [] + rest == rest;
      }
    }
  }

  // ---- One cancel ----

  lemma {:induction false} PutPurges(side: Side, levels: seq<Level>, price: Price, id: Id)
    requires SideOk(side, levels) && LevelAt(levels, price).Some?
    requires forall l <- levels :: l.price != price ==> forall o <- l.orders :: o.tag.id != id
    ensures PutQueue(levels, price, Filter(Not(HasId(id)), QueueAt(levels, price))) == Purged(NotIn({id}), levels)
  {
    SideTail(side, levels);
    assert levels[0] in levels && forall l <- levels[1..] :: l in levels;
    FilterSame(Not(HasId(id)), NotIn({id}), levels[0].orders);
    if levels[0].price == price {
      PurgedAll(NotIn({id}), side, levels[1..]);
    } else {
      PutPurges(side, levels[1..], price, id);
      FilterAll(NotIn({id}), levels[0].orders);
    }
  }

  /** Every order of a level with this id is the registered one. */
  lemma IdRestsOnce(c: Core, r: map<Id, Tag>, side: Side, l: Level, o: Order)
    requires Good(c, r) && l in SideOf(c, side) && o in l.orders
    ensures o.tag.id in r && r[o.tag.id] == o.tag && o.tag.side == side && o.tag.price == l.price
  {
    QueueHolds(side, SideOf(c, side), l);
    OrderWeight(o.tag, side, SideOf(c, side), l.price, o);
    assert BookSum(Is(o.tag), c) == Registered(r, o.tag);
    assert LevelOk(side, l) && Fits(o, side, l.price);
  }

  lemma CancelPurges(c: Core, r: map<Id, Tag>, id: Id, side: Side)
    requires Good(c, r)
    ensures SideOf(Cancel(c, id).core, side) == Purged(NotIn({id}), SideOf(c, side))
  {
    var levels := SideOf(c, side);
    forall l, o | l in levels && o in l.orders && o.tag.id == id ensures id in r && r[id].side == side && r[id].price == l.price {
      IdRestsOnce(c, r, side, l, o);
    }
    if id in r && r[id].side == side {
      Found(c, r, id);
      PutPurges(side, levels, r[id].price, id);
    } else {
      if id in r {
        Found(c, r, id);
      }
      PurgedAll(NotIn({id}), side, levels);
    }
  }

  /** Another order is found unchanged after a cancel. */
  lemma CancelKeepsOthers(c: Core, r: map<Id, Tag>, id: Id, other: Id)
    requires Good(c, r) && other != id && other in r
    ensures GetOrder(Cancel(c, id).core, other) == GetOrder(c, other)
  {
    hide Moves;
    var cut, t := Cancel(c, id), r[other];
    CancelMoves(c, r, id);
    CancelRegisters(c, r, id);
    assert Good(cut.core, r - {id}) by { UnfoldMoves(c, r, cut.effects, cut.core); }
    Found(c, r, other);
    Found(cut.core, r - {id}, other);
    var queue := QueueAt(SideOf(c, t.side), t.price);
    FilterMember(HasId(other), queue, GetOrder(c, other).value);
    assert GetOrder(c, other).value in QueueAt(SideOf(cut.core, t.side), t.price) by {
      CancelQueue(c, r, id, t.side, t.price);
      FilterMember(NotIn({id}), queue, GetOrder(c, other).value);
    }
    FilterMember(HasId(other), QueueAt(SideOf(cut.core, t.side), t.price), GetOrder(c, other).value);
  }

  lemma CancelQueue(c: Core, r: map<Id, Tag>, id: Id, side: Side, price: Price)
    requires Good(c, r)
    ensures QueueAt(SideOf(Cancel(c, id).core, side), price) == Filter(NotIn({id}), QueueAt(SideOf(c, side), price))
  {
    CancelPurges(c, r, id, side);
    PurgedQueue(NotIn({id}), side, SideOf(c, side), price);
  }

  lemma {:induction false} PurgedMembers(keep: Order -> bool, levels: seq<Level>)
    ensures forall l <- Purged(keep, levels) :: forall o <- l.orders :: keep(o)
  {
    if levels != [] {
      PurgedMembers(keep, levels[1..]);
      forall o | o in Filter(keep, levels[0].orders) ensures keep(o) {
        FilterMember(keep, levels[0].orders, o);
      }
    }
  }

  lemma {:induction false} PurgedMissing(keep: Order -> bool, levels: seq<Level>, price: Price)
    requires forall l <- levels :: l.price != price
    ensures QueueAt(Purged(keep, levels), price) == []
  {
    if levels != [] {
      assert levels[0] in levels && forall l <- levels[1..] :: l in levels;
      PurgedMissing(keep, levels[1..], price);
      assert [] + Purged(keep, levels[1..]) == Purged(keep, levels[1..]);
    }
  }

  lemma {:induction false} PurgedQueue(keep: Order -> bool, side: Side, levels: seq<Level>, price: Price)
    requires SideOk(side, levels)
    ensures QueueAt(Purged(keep, levels), price) == Filter(keep, QueueAt(levels, price))
  {
    if levels != [] {
      SideTail(side, levels);
      assert [] + Purged(keep, levels[1..]) == Purged(keep, levels[1..]);
      if levels[0].price == price {
        PurgedMissing(keep, levels[1..], price);
      } else {
        PurgedQueue(keep, side, levels[1..], price);
      }
    }
  }

  // ---- Cancelling one by one ----

  /** Cancelling a list of ids removes exactly the orders with those ids. */
  lemma {:induction false} CancelEachPurges(c: Core, r: map<Id, Tag>, ids: seq<Id>, side: Side)
    requires Good(c, r)
    ensures SideOf(CancelEach(c, ids).core, side) == Purged(NotIn(IdSet(ids)), SideOf(c, side))
    decreases |ids|
  {
    hide Good, Cancel;
    if ids == [] {
      assert SideOk(side, SideOf(c, side)) by { UnfoldGood(c, r); }
      PurgedAll(NotIn(IdSet(ids)), side, SideOf(c, side));
    } else {
      var first := Cancel(c, ids[0]);
      CancelMoves(c, r, ids[0]);
      assert Good(first.core, Register(r, first.effects)) by { UnfoldMoves(c, r, first.effects, first.core); }
      CancelEachPurges(first.core, Register(r, first.effects), ids[1..], side);
      CancelPurges(c, r, ids[0], side);
      PurgedTwice(NotIn({ids[0]}), NotIn(IdSet(ids[1..])), NotIn(IdSet(ids)), SideOf(c, side));
    }
  }

  /** Distinct resting ids are reported one for one, each with the order that rested. */
  lemma {:induction false} CancelEachReports(c: Core, r: map<Id, Tag>, ids: seq<Id>)
    requires Good(c, r) && NoDup(ids) && forall id <- ids :: id in r
    ensures var done := CancelEach(c, ids).cancelled;
            |done| == |ids| && forall i :: 0 <= i < |ids| ==> GetOrder(c, ids[i]) == Some(done[i])
    decreases |ids|
  {
    hide Good;
    if ids != [] {
      var first := Cancel(c, ids[0]);
      CancelMoves(c, r, ids[0]);
      CancelRegisters(c, r, ids[0]);
      assert Good(first.core, r - {ids[0]}) by { UnfoldMoves(c, r, first.effects, first.core); }
      assert ids[0] in ids;
      forall id | id in ids[1..] ensures id in r - {ids[0]} {
        var k :| 0 <= k < |ids[1..]| && ids[1..][k] == id;
        assert ids[k + 1] == id;
      }
      CancelEachReports(first.core, r - {ids[0]}, ids[1..]);
      forall i | 1 <= i < |ids| ensures GetOrder(first.core, ids[i]) == GetOrder(c, ids[i]) {
        CancelKeepsOthers(c, r, ids[0], ids[i]);
      }
      var rest := CancelEach(first.core, ids[1..]).cancelled;
      assert forall i :: 1 <= i < |ids| ==> ids[i] == ids[1..][i - 1];
    }
  }

  // ---- Selecting orders ----

  lemma {:induction false} AscendingMembers(side: Side, levels: seq<Level>, o: Order)
    ensures o in Ascending(side, levels) <==> exists l :: l in levels && o in l.orders
  {
    if levels != [] {
      AscendingMembers(side, levels[1..], o);
      assert levels == [levels[0]] + levels[1..];
    }
  }

  lemma IdsMember(orders: seq<Order>, id: Id)
    ensures id in Ids(orders) <==> exists o :: o in orders && o.tag.id == id
  {
    if id in Ids(orders) {
      var i :| 0 <= i < |orders| && Ids(orders)[i] == id;
      assert orders[i] in orders;
    }
    if o :| o in orders && o.tag.id == id {
      var i :| 0 <= i < |orders| && orders[i] == o;
      assert Ids(orders)[i] == id;
    }
  }

  lemma IdsSum(a: seq<Order>, b: seq<Order>)
    ensures Ids(a + b) == Ids(a) + Ids(b)
  {
  }

  lemma CountTwo(t: Tag, orders: seq<Order>, i: nat, j: nat)
    requires i < j < |orders| && orders[i].tag == t && orders[j].tag == t
    ensures Sum(OfTag(Is(t)), orders) >= 2
  {
    SumAppend(OfTag(Is(t)), orders[..j], orders[j..]);
    assert orders == orders[..j] + orders[j..];
    SumElement(OfTag(Is(t)), orders[..j], i);
    SumElement(OfTag(Is(t)), orders[j..], 0);
  }

  /** The order rests in the book. */
  predicate Resting(c: Core, o: Order) {
    (exists l :: l in c.bids && o in l.orders) || exists l :: l in c.asks && o in l.orders
  }

  /** A resting order is the one its id is looked up to. */
  lemma RestingFound(c: Core, r: map<Id, Tag>, o: Order)
    requires Good(c, r) && Resting(c, o)
    ensures o.tag.id in r && r[o.tag.id] == o.tag && GetOrder(c, o.tag.id) == Some(o)
  {
    var side := if exists l :: l in c.bids && o in l.orders then Buy else Sell;
    var l :| l in SideOf(c, side) && o in l.orders;
    IdRestsOnce(c, r, side, l, o);
    Found(c, r, o.tag.id);
    QueueHolds(side, SideOf(c, side), l);
    FilterMember(HasId(o.tag.id), l.orders, o);
  }

  /** A selection of resting orders, none twice. */
  ghost predicate Picks(c: Core, picked: seq<Order>) {
    && (forall o <- picked :: Resting(c, o))
    && forall t :: Sum(OfTag(Is(t)), picked) <= BookSum(Is(t), c)
  }

  lemma PicksDistinct(c: Core, r: map<Id, Tag>, picked: seq<Order>)
    requires Good(c, r) && Picks(c, picked)
    ensures NoDup(Ids(picked)) && forall id <- Ids(picked) :: id in r
  {
    var ids := Ids(picked);
    forall i | 0 <= i < |ids| ensures ids[i] in r && r[ids[i]] == picked[i].tag {
      RestingFound(c, r, picked[i]);
    }
    forall i, j | 0 <= i < j < |ids| ensures ids[i] != ids[j] {
      assert BookSum(Is(r[ids[i]]), c) == Registered(r, r[ids[i]]);
      if ids[i] == ids[j] {
        CountTwo(r[ids[i]], picked, i, j);
      }
    }
  }

  function Unpicked(picked: seq<Order>): Order -> bool {
    (o: Order) => o !in picked
  }

  /** Cancelling a selection one by one removes exactly it, reports it in order and keeps
      every other queue position. */
  lemma PickedExactly(c: Core, r: map<Id, Tag>, picked: seq<Order>, side: Side)
    requires Good(c, r) && Picks(c, picked)
    ensures var x := CancelEach(c, Ids(picked));
            && x.cancelled == picked
            && SideOf(x.core, side) == Purged(Unpicked(picked), SideOf(c, side))
  {
    var ids := Ids(picked);
    PicksDistinct(c, r, picked);
    CancelEachReports(c, r, ids);
    forall i | 0 <= i < |picked| ensures GetOrder(c, ids[i]) == Some(picked[i]) {
      RestingFound(c, r, picked[i]);
    }
    CancelEachPurges(c, r, ids, side);
    forall l, o | l in SideOf(c, side) && o in l.orders ensures NotIn(IdSet(ids))(o) == Unpicked(picked)(o) {
      assert Resting(c, o);
      RestingFound(c, r, o);
      IdsMember(picked, o.tag.id);
      if x :| x in picked && x.tag.id == o.tag.id {
        RestingFound(c, r, x);
      }
    }
    PurgedSame(NotIn(IdSet(ids)), Unpicked(picked), SideOf(c, side));
  }

  lemma PicksFilter(c: Core, source: seq<Order>, p: Order -> bool)
    requires Picks(c, source)
    ensures Picks(c, Filter(p, source))
  {
    forall o | o in Filter(p, source) ensures Resting(c, o) {
      FilterMember(p, source, o);
    }
    forall t ensures Sum(OfTag(Is(t)), Filter(p, source)) <= BookSum(Is(t), c) {
      FilterSum(OfTag(Is(t)), p, source);
      assert Sum(OfTag(Is(t)), source) <= BookSum(Is(t), c);
    }
  }

  lemma PicksSide(c: Core, side: Side)
    ensures Picks(c, Ascending(side, SideOf(c, side)))
  {
    forall o | o in Ascending(side, SideOf(c, side)) ensures Resting(c, o) {
      AscendingMembers(side, SideOf(c, side), o);
    }
    forall t ensures Sum(OfTag(Is(t)), Ascending(side, SideOf(c, side))) <= BookSum(Is(t), c) {
      AscendingSum(OfTag(Is(t)), side, SideOf(c, side));
    }
  }

  lemma PicksBook(c: Core)
    ensures Picks(c, AllAscending(c))
  {
    forall o | o in AllAscending(c) ensures Resting(c, o) {
      AscendingMembers(Buy, c.bids, o);
      AscendingMembers(Sell, c.asks, o);
    }
    forall t ensures Sum(OfTag(Is(t)), AllAscending(c)) <= BookSum(Is(t), c) {
      SumAppend(OfTag(Is(t)), Ascending(Buy, c.bids), Ascending(Sell, c.asks));
      AscendingSum(OfTag(Is(t)), Buy, c.bids);
      AscendingSum(OfTag(Is(t)), Sell, c.asks);
    }
  }

  // ---- The mass cancels ----

  lemma SideApart(c: Core, r: map<Id, Tag>, side: Side, o: Order, l: Level)
    requires Good(c, r) && l in SideOf(c, side.Opposite()) && o in l.orders
    ensures o !in Ascending(side, SideOf(c, side))
  {
    IdRestsOnce(c, r, side.Opposite(), l, o);
    AscendingMembers(side, SideOf(c, side), o);
    if m :| m in SideOf(c, side) && o in m.orders {
      IdRestsOnce(c, r, side, m, o);
    }
  }

  /** Selecting orders of one side by `p` and cancelling them one by one. */
  lemma SideSelection(c: Core, r: map<Id, Tag>, side: Side, p: Order -> bool)
    requires Good(c, r)
    ensures var source := Ascending(side, SideOf(c, side));
            var x := CancelEach(c, Ids(Filter(p, source)));
            && x.cancelled == Filter(p, source)
            && SideOf(x.core, side) == Purged(Not(p), SideOf(c, side))
            && SideOf(x.core, side.Opposite()) == SideOf(c, side.Opposite())
  {
    hide CancelEach;
    var source, other := Ascending(side, SideOf(c, side)), side.Opposite();
    var picked := Filter(p, source);
    PicksSide(c, side);
    PicksFilter(c, source, p);
    PickedExactly(c, r, picked, side);
    PickedExactly(c, r, picked, other);
    forall l, o | l in SideOf(c, side) && o in l.orders ensures Unpicked(picked)(o) == Not(p)(o) {
      AscendingMembers(side, SideOf(c, side), o);
      FilterMember(p, source, o);
    }
    PurgedSame(Unpicked(picked), Not(p), SideOf(c, side));
    forall l, o | l in SideOf(c, other) && o in l.orders ensures Unpicked(picked)(o) {
      SideApart(c, r, side, o, l);
      FilterMember(p, source, o);
    }
    PurgedAll(Unpicked(picked), other, SideOf(c, other));
  }

  function Any(): Order -> bool {
    (o: Order) => true
  }

  /** Cancelling a side empties it, reports its orders by ascending price and queue order,
      and leaves the other side alone. */
  lemma CancelBySideExact(c: Core, r: map<Id, Tag>, side: Side)
    requires Good(c, r)
    ensures var x := CancelBySide(c, side);
            && x.cancelled == Ascending(side, SideOf(c, side))
            && SideOf(x.core, side) == []
            && SideOf(x.core, side.Opposite()) == SideOf(c, side.Opposite())
  {
    SideSelection(c, r, side, Any());
    FilterAll(Any(), Ascending(side, SideOf(c, side)));
    PurgedNone(Not(Any()), SideOf(c, side));
  }

  /** Cancelling a price range removes exactly the orders of the side within it. */
  lemma CancelByRangeExact(c: Core, r: map<Id, Tag>, side: Side, low: Price, high: Price)
    requires Good(c, r)
    ensures var x := CancelByRange(c, side, low, high);
            && x.cancelled == Filter(InRange(low, high), Ascending(side, SideOf(c, side)))
            && SideOf(x.core, side) == Purged(Not(InRange(low, high)), SideOf(c, side))
            && SideOf(x.core, side.Opposite()) == SideOf(c, side.Opposite())
  {
    SideSelection(c, r, side, InRange(low, high));
    if low > high {
      FilterAll(InRange(low, high), Ascending(side, SideOf(c, side)));
      PurgedAll(Not(InRange(low, high)), side, SideOf(c, side));
    }
  }

  /** Eviction removes exactly the expired orders of both sides, reports them in order, and
      a second eviction at the same time finds none. */
  lemma EvictExact(c: Core, r: map<Id, Tag>, now: nat)
    requires Good(c, r)
    ensures var x := EvictExpired(c, now);
            && x.cancelled == Filter(ExpiredAt(now, c.close), AllAscending(c))
            && x.core.bids == Purged(Not(ExpiredAt(now, c.close)), c.bids)
            && x.core.asks == Purged(Not(ExpiredAt(now, c.close)), c.asks)
            && EvictExpired(x.core, now) == Batch(x.core, [], [])
  {
    hide CancelEach;
    var p := ExpiredAt(now, c.close);
    var picked := Filter(p, AllAscending(c));
    PicksBook(c);
    PicksFilter(c, AllAscending(c), p);
    forall s: Side ensures SideOf(EvictExpired(c, now).core, s) == Purged(Not(p), SideOf(c, s)) {
      PickedExactly(c, r, picked, s);
      forall l, o | l in SideOf(c, s) && o in l.orders ensures Unpicked(picked)(o) == Not(p)(o) {
        AscendingMembers(s, SideOf(c, s), o);
        FilterMember(p, AllAscending(c), o);
      }
      PurgedSame(Unpicked(picked), Not(p), SideOf(c, s));
    }
    PickedExactly(c, r, picked, Buy);
    var x := EvictExpired(c, now);
    assert x.core.bids == SideOf(x.core, Buy) && x.core.asks == SideOf(x.core, Sell);
    EvictAgain(c, r, now);
  }

  lemma EvictAgain(c: Core, r: map<Id, Tag>, now: nat)
    requires Good(c, r)
    requires var x := EvictExpired(c, now);
             && x.core.bids == Purged(Not(ExpiredAt(now, c.close)), c.bids)
             && x.core.asks == Purged(Not(ExpiredAt(now, c.close)), c.asks)
    ensures EvictExpired(EvictExpired(c, now).core, now) == Batch(EvictExpired(c, now).core, [], [])
  {
    hide CancelEach;
    var p, x := ExpiredAt(now, c.close), EvictExpired(c, now);
    CancelEachMoves(c, r, Ids(Filter(p, AllAscending(c))));
    assert x.core.close == c.close;
    PurgedMembers(Not(p), c.bids);
    PurgedMembers(Not(p), c.asks);
    forall o | o in AllAscending(x.core) ensures !p(o) {
      AscendingMembers(Buy, x.core.bids, o);
      AscendingMembers(Sell, x.core.asks, o);
    }
    FilterAll(p, AllAscending(x.core));
    NoneCancelled(x.core);
  }

  lemma NoneCancelled(c: Core)
    ensures CancelEach(c, Ids([])) == Batch(c, [], [])
  {
  }

  /** Clearing the book at once equals cancelling every order one by one: the same orders in
      the same order, bids before asks, and the same queues and indexes afterwards. */
  lemma BulkRefinesOneByOne(c: Core, r: map<Id, Tag>, users: map<User, seq<Id>>)
    requires Good(c, r) && Tracks(users, r)
    ensures var bulk, each := CancelAll(c), CancelEach(c, Ids(AllAscending(c)));
            && bulk.cancelled == each.cancelled == AllAscending(c)
            && bulk.core == each.core
            && Register(r, bulk.effects) == Register(r, each.effects)
            && Track(users, bulk.effects) == Track(users, each.effects) == map[]
  {
    hide CancelEach, Good, Tracks;
    var bulk, each := CancelAll(c), CancelEach(c, Ids(AllAscending(c)));
    CancelAllMoves(c, r);
    CancelEachMoves(c, r, Ids(AllAscending(c)));
    PicksBook(c);
    forall s: Side ensures SideOf(each.core, s) == [] {
      PickedExactly(c, r, AllAscending(c), s);
      forall l, o | l in SideOf(c, s) && o in l.orders ensures !Unpicked(AllAscending(c))(o) {
        AscendingMembers(s, SideOf(c, s), o);
      }
      PurgedNone(Unpicked(AllAscending(c)), SideOf(c, s));
    }
    PickedExactly(c, r, AllAscending(c), Buy);
    assert each.core.bids == SideOf(each.core, Buy) && each.core.asks == SideOf(each.core, Sell);
    UnfoldMoves(c, r, each.effects, each.core);
    UnfoldMoves(c, r, bulk.effects, bulk.core);
    NothingRegistered(each.core, Register(r, each.effects));
    NothingRegistered(bulk.core, Register(r, bulk.effects));
    NobodyTracked(c, r, users, bulk.effects, bulk.core);
    NobodyTracked(c, r, users, each.effects, each.core);
  }

  lemma NobodyTracked(c: Core, r: map<Id, Tag>, users: map<User, seq<Id>>, es: seq<Effect>, c': Core)
    requires Good(c, r) && Tracks(users, r) && Moves(c, r, es, c') && Register(r, es) == map[]
    ensures Track(users, es) == map[]
  {
    TracksKept(users, r, es);
    NoUsersLeft(Track(users, es));
  }

  lemma NothingRegistered(c: Core, r: map<Id, Tag>)
    requires Good(c, r) && c.bids == [] && c.asks == []
    ensures r == map[] && c.locations == map[]
  {
    EmptyBook(c, r);
  }

  /** Cancelling a user's listed ids removes exactly the orders of that user, in list order. */
  lemma CancelByUserExact(c: Core, r: map<Id, Tag>, users: map<User, seq<Id>>, user: User, side: Side)
    requires Good(c, r) && Tracks(users, r)
    ensures var ids := ListOf(users, user);
            var x := CancelEach(c, ids);
            && SideOf(x.core, side) == Purged(Not(Mine(user)), SideOf(c, side))
            && |x.cancelled| == |ids|
            && forall i :: 0 <= i < |ids| ==> Some(x.cancelled[i]) == GetOrder(c, ids[i]) && x.cancelled[i].tag.user == user
  {
    hide CancelEach;
    var ids := ListOf(users, user);
    CancelEachPurges(c, r, ids, side);
    CancelEachReports(c, r, ids);
    forall l, o | l in SideOf(c, side) && o in l.orders ensures NotIn(IdSet(ids))(o) == Not(Mine(user))(o) {
      IdRestsOnce(c, r, side, l, o);
    }
    PurgedSame(NotIn(IdSet(ids)), Not(Mine(user)), SideOf(c, side));
    forall i | 0 <= i < |ids| ensures GetOrder(c, ids[i]).Some? && GetOrder(c, ids[i]).value.tag.user == user {
      Found(c, r, ids[i]);
    }
  }
}
