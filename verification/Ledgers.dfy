/** The indexes and the feed as one value, moved forward by effects, and the facts about
    appending to a walk that the in-place sweep relies on. */
module Ledgers {
  import opened Types
  import opened Seqs
  import opened Orders
  import opened Levels
  import opened Stp
  import opened Effects
  import opened Matching
  import opened SweepLaws
  import opened Engine
  import opened OpLaws
  import opened Runs
  import opened MassCancelLaws

  datatype Ledger = Ledger(locations: map<Id, Location>, registry: map<Id, Tag>, users: map<User, seq<Id>>, feed: Feed)

  function Post(l: Ledger, es: seq<Effect>): Ledger {
    Ledger(Locate(l.locations, es), Register(l.registry, es), Track(l.users, es), Emit(l.feed, es))
  }

  function LedgerOf(b: Book): Ledger {
    Ledger(b.core.locations, b.registry, b.users, b.feed)
  }

  /** The book with this ledger, and the levels and settings of `shelves`. */
  function Bind(shelves: Core, l: Ledger): Book {
    Book(shelves.(locations := l.locations), l.registry, l.users, l.feed)
  }

  lemma PostNone(l: Ledger)
    ensures Post(l, []) == l
  {
  }

  lemma PostOne(l: Ledger, e: Effect)
    ensures Post(l, [e]) == Ledger(LocateStep(l.locations, e), RegisterStep(l.registry, e), TrackStep(l.users, e), EmitStep(l.feed, e))
  {
    assert [e] + [] == [e];
    FoldCons(LocateStep, l.locations, e, []);
    FoldCons(RegisterStep, l.registry, e, []);
    FoldCons(TrackStep, l.users, e, []);
    FoldCons(EmitStep, l.feed, e, []);
  }

  /** What a fill or a withdrawal does to each structure. */
  lemma PostForgotten(l: Ledger, e: Effect)
    requires e.Filled? || e.Withdrawn?
    ensures Post(l, [e]) == Ledger(l.locations - {e.tag.id}, l.registry - {e.tag.id}, Untrack(l.users, e.tag.user, e.tag.id), l.feed)
  {
    hide Untrack, Post;
    PostOne(l, e);
  }

  lemma PostThen(l: Ledger, a: seq<Effect>, b: seq<Effect>)
    ensures Post(Post(l, a), b) == Post(l, a + b)
  {
    FoldAppend(LocateStep, l.locations, a, b);
    FoldAppend(RegisterStep, l.registry, a, b);
    FoldAppend(TrackStep, l.users, a, b);
    FoldAppend(EmitStep, l.feed, a, b);
  }

  /** Changing one side and posting its effects is a commit. */
  lemma Settled(b: Book, side: Side, levels: seq<Level>, es: seq<Effect>)
    ensures Bind(WithSide(b.core.(locations := map[]), side, levels), Post(LedgerOf(b), es)) == Commit(b, Settle(b.core, side, levels, es), es)
  {
  }

  /** Posting effects that concern no order leaves the levels and indexes alone. */
  lemma Reported(b: Book, id: Id, trades: seq<Trade>)
    ensures Bind(b.core.(locations := map[]), Post(LedgerOf(b), Report(id, trades))) == Commit(b, b.core, Report(id, trades))
  {
    if trades != [] {
      PostOne(LedgerOf(b), Traded(id, trades));
    }
  }

  lemma CommitThen(b: Book, c: Core, es: seq<Effect>, c': Core, es': seq<Effect>)
    ensures Commit(Commit(b, c, es), c', es') == Commit(b, c', es + es')
  {
    FoldAppend(RegisterStep, b.registry, es, es');
    FoldAppend(TrackStep, b.users, es, es');
    FoldAppend(EmitStep, b.feed, es, es');
  }

  // ---- Appending one visit ----

  lemma {:induction false} EffectsMore(done: seq<Visit>, v: Visit)
    ensures WalkEffects(done + [v]) == WalkEffects(done) + v.effects
    ensures AllFilled(done + [v]) == AllFilled(done) + v.filled
    decreases |done|
  {
    if done == [] {
      assert done + [v] == [v] && [v][1..] == [];
    } else {
      assert (done + [v])[0] == done[0] && (done + [v])[1..] == done[1..] + [v];
      EffectsMore(done[1..], v);
      var rest, gone := WalkEffects(done[1..]), AllFilled(done[1..]);
      assert done[0].effects + (rest + v.effects) == done[0].effects + rest + v.effects;
      assert done[0].filled + (gone + v.filled) == done[0].filled + gone + v.filled;
    }
  }

  lemma {:induction false} TradesMore(levels: seq<Level>, done: seq<Visit>, v: Visit)
    requires |done| < |levels|
    ensures Trades(levels, done + [v]) == Trades(levels, done) + Priced(levels[|done|].price, v.fills)
    decreases |done|
  {
    if done == [] {
      assert done + [v] == [v] && [v][1..] == [];
    } else {
      assert (done + [v])[0] == done[0] && (done + [v])[1..] == done[1..] + [v];
      TradesMore(levels[1..], done[1..], v);
    }
  }

  lemma AfterMore(levels: seq<Level>, done: seq<Visit>, v: Visit)
    requires |done| < |levels|
    ensures After(levels, done + [v]) == After(levels, done)[|done| := Level(levels[|done|].price, v.orders)]
  {
    hide After;
    var more, out := After(levels, done + [v]), After(levels, done)[|done| := Level(levels[|done|].price, v.orders)];
    forall i | 0 <= i < |levels| ensures more[i] == out[i] {
      if i < |done| {
        assert (done + [v])[i] == done[i];
      }
    }
  }

  /** The walk that visits `done` and then what `rest` does. */
  function Splice(done: seq<Visit>, rest: Walk): Walk {
    rest.(visits := done + rest.visits)
  }

  /** The sweep from a level on, one level unfolded. */
  lemma SweepUnfolds(cfg: Config, tk: Taker, levels: seq<Level>, stop: StopCondition)
    ensures var w := Sweep(cfg, tk, levels, stop);
            if levels == [] || !Within(tk.side, tk.limit, levels[0].price) || LevelCap(stop, levels[0].price, LotSize(cfg)) == 0 then
              w == Walk([], stop, false, false)
            else if tk.postOnly then
              if Sum(Drawable, levels[0].orders) > 0 then w == Walk([], stop, false, true)
              else w == Prepend(Untouched(levels[0]), Sweep(cfg, tk, levels[1..], stop))
            else
              var v := VisitLevel(cfg, tk, levels[0], LevelCap(stop, levels[0].price, LotSize(cfg)));
              var next := Consume(stop, v.executed, levels[0].price);
              w == if v.halts || Done(next) then Walk([v], next, v.halts, false)
                   else Prepend(v, Sweep(cfg, tk, levels[1..], next))
  {
    hide VisitLevel, LevelCap, Consume, LotSize;
  }

  // ---- Cancelling makers on a level ----

  lemma {:induction false} FilterOthers(id: Id, orders: seq<Order>)
    requires forall o <- orders :: o.tag.id != id
    ensures Filter(Not(HasId(id)), orders) == orders && Filter(HasId(id), orders) == [] && FindOrder(orders, id).None?
  {
    if orders != [] {
      assert orders[0] in orders && forall o <- orders[1..] :: o in orders;
      FilterOthers(id, orders[1..]);
      assert orders == [orders[0]] + orders[1..];
    }
  }

  lemma {:induction false} FindBehind(kept: seq<Order>, o: Order, rest: seq<Order>)
    requires forall x <- kept :: x.tag.id != o.tag.id
    ensures FindOrder(kept + [o] + rest, o.tag.id) == Some(o)
  {
    var all := kept + [o] + rest;
    if kept != [] {
      assert kept[0] in kept && forall x <- kept[1..] :: x in kept;
      FindBehind(kept[1..], o, rest);
      assert all[0] == kept[0] && all[1..] == kept[1..] + [o] + rest;
    } else {
      assert all[0] == o;
    }
  }

  /** Removing the one order with its id from the middle of a queue. */
  lemma CutMiddle(kept: seq<Order>, o: Order, rest: seq<Order>)
    requires forall x <- kept + rest :: x.tag.id != o.tag.id
    ensures Filter(Not(HasId(o.tag.id)), kept + [o] + rest) == kept + rest
    ensures FindOrder(kept + [o] + rest, o.tag.id) == Some(o)
  {
    var id := o.tag.id;
    assert forall x <- kept :: x in kept + rest;
    assert forall x <- rest :: x in kept + rest;
    FilterOthers(id, kept);
    FilterOthers(id, rest);
    FilterAppend(Not(HasId(id)), kept + [o], rest);
    FilterAppend(Not(HasId(id)), kept, [o]);
    assert kept + [] == kept;
    FindBehind(kept, o, rest);
  }

  lemma {:induction false} FindSplit(orders: seq<Order>, id: Id) returns (k: nat)
    requires FindOrder(orders, id).Some?
    ensures k < |orders| && orders[k] == FindOrder(orders, id).value && orders[k].tag.id == id
    ensures forall o <- orders[..k] :: o.tag.id != id
  {
    if orders[0].tag.id == id {
      k := 0;
    } else {
      k := FindSplit(orders[1..], id);
      assert orders[..k + 1] == [orders[0]] + orders[1..][..k];
      k := k + 1;
    }
  }

  lemma {:induction false} FindNone(orders: seq<Order>, id: Id)
    requires FindOrder(orders, id).None?
    ensures forall o <- orders :: o.tag.id != id
  {
    if orders != [] {
      FindNone(orders[1..], id);
      assert orders == [orders[0]] + orders[1..];
    }
  }

  lemma {:induction false} SkipRemoval(kept: seq<Order>, passed: seq<Order>, rest: seq<Order>, id: Id, side: Side, price: Price)
    requires forall o <- passed :: o.tag.id != id
    ensures Removal(kept, passed + rest, HasId(id), side, price) == Removal(kept + passed, rest, HasId(id), side, price)
    decreases |passed|
  {
    if passed == [] {
      assert passed + rest == rest && kept + passed == kept;
    } else {
      var o, more := passed[0], passed[1..];
      assert o in passed && forall x <- more :: x in passed;
      assert (passed + rest)[0] == o && (passed + rest)[1..] == more + rest;
      SkipRemoval(kept + [o], more, rest, id, side, price);
      assert kept + [o] + more == kept + passed;
    }
  }

  lemma OthersApart(orders: seq<Order>, k: nat)
    requires NoDup(Ids(orders)) && k < |orders|
    ensures forall x <- orders[..k] + orders[k + 1..] :: x.tag.id != orders[k].tag.id
  {
    forall x: Order | x in orders[..k] + orders[k + 1..] ensures x.tag.id != orders[k].tag.id {
      if x in orders[..k] {
        var i :| 0 <= i < k && orders[i] == x;
        assert Ids(orders)[i] != Ids(orders)[k];
      } else {
        var i :| 0 <= i < |orders[k + 1..]| && orders[k + 1..][i] == x;
        assert Ids(orders)[k + 1 + i] != Ids(orders)[k];
      }
    }
  }

  lemma RemovalHit(kept: seq<Order>, o: Order, rest: seq<Order>, side: Side, price: Price)
    requires forall x <- rest :: x.tag.id != o.tag.id
    ensures Removal(kept, [o] + rest, HasId(o.tag.id), side, price)
            == [LevelChanged(side, price, Sum(Visible, kept + rest)), Cancelled(o.tag)]
  {
    assert ([o] + rest)[0] == o && ([o] + rest)[1..] == rest;
    NoRemoval(kept, rest, o.tag.id, side, price);
  }

  /** With distinct ids, removing by id is one cancellation or nothing. */
  lemma RemovalOfOne(orders: seq<Order>, id: Id, side: Side, price: Price)
    requires NoDup(Ids(orders))
    ensures var found, left := FindOrder(orders, id), Filter(Not(HasId(id)), orders);
            && (found.None? ==> left == orders)
            && Removal([], orders, HasId(id), side, price) ==
               if found.None? then [] else [LevelChanged(side, price, Sum(Visible, left)), Cancelled(found.value.tag)]
  {
    hide FindOrder, Filter, Removal, Ids, NoDup, Sum;
    if FindOrder(orders, id).None? {
      FindNone(orders, id);
      FilterOthers(id, orders);
      NoRemoval([], orders, id, side, price);
    } else {
      var k := FindSplit(orders, id);
      var before, o, behind := orders[..k], orders[k], orders[k + 1..];
      SplitAt(orders, k);
      OthersApart(orders, k);
      CutMiddle(before, o, behind);
      SkipRemoval([], before, [o] + behind, id, side, price);
      assert [] + before == before;
      assert forall x <- behind :: x in before + behind;
      RemovalHit(before, o, behind, side, price);
    }
  }

  lemma {:induction false} NoRemoval(kept: seq<Order>, todo: seq<Order>, id: Id, side: Side, price: Price)
    requires forall o <- todo :: o.tag.id != id
    ensures Removal(kept, todo, HasId(id), side, price) == []
    decreases |todo|
  {
    if todo != [] {
      assert todo[0] in todo && forall o <- todo[1..] :: o in todo;
      NoRemoval(kept + [todo[0]], todo[1..], id, side, price);
    }
  }

  /** One step of cancelling a user's makers in queue order. */
  lemma RemovalStep(orders: seq<Order>, user: User, j: nat, side: Side, price: Price)
    requires j < |orders| && NoDup(Ids(orders))
    ensures var kept, o, rest := Filter(Not(Mine(user)), orders[..j]), orders[j], orders[j + 1..];
            && kept + orders[j..] == kept + [o] + rest
            && Filter(Not(HasId(o.tag.id)), kept + [o] + rest) == kept + rest
            && FindOrder(kept + [o] + rest, o.tag.id) == Some(o)
            && Filter(Not(Mine(user)), orders[..j + 1]) == (if Mine(user)(o) then kept else kept + [o])
            && Removal(kept, orders[j..], Mine(user), side, price) ==
               if Mine(user)(o) then [LevelChanged(side, price, Sum(Visible, kept + rest)), Cancelled(o.tag)] + Removal(kept, rest, Mine(user), side, price)
               else Removal(kept + [o], rest, Mine(user), side, price)
  {
    hide NoDup, Ids;
    var kept, o, rest := Filter(Not(Mine(user)), orders[..j]), orders[j], orders[j + 1..];
    assert orders[j..] == [o] + rest;
    OthersDiffer(orders, user, j);
    CutMiddle(kept, o, rest);
    assert orders[..j + 1] == orders[..j] + [o];
    FilterAppend(Not(Mine(user)), orders[..j], [o]);
    assert kept + [] == kept;
  }

  lemma OthersDiffer(orders: seq<Order>, user: User, j: nat)
    requires j < |orders| && NoDup(Ids(orders))
    ensures forall x <- Filter(Not(Mine(user)), orders[..j]) + orders[j + 1..] :: x.tag.id != orders[j].tag.id
  {
    var kept, rest := Filter(Not(Mine(user)), orders[..j]), orders[j + 1..];
    forall x: Order | x in kept + rest ensures x.tag.id != orders[j].tag.id {
      if x in kept {
        FilterMember(Not(Mine(user)), orders[..j], x);
        var i :| 0 <= i < j && orders[i] == x;
        assert Ids(orders)[i] != Ids(orders)[j];
      } else {
        var i :| 0 <= i < |rest| && rest[i] == x;
        assert Ids(orders)[j + 1 + i] != Ids(orders)[j];
      }
    }
  }

  /** The queue when the first `j` orders have been looked at, and the effects still ahead. */
  function Thinned(orders: seq<Order>, user: User, j: nat): seq<Order>
    requires j <= |orders|
  {
    Filter(Not(Mine(user)), orders[..j]) + orders[j..]
  }

  function Ahead(orders: seq<Order>, user: User, j: nat, side: Side, price: Price): seq<Effect>
    requires j <= |orders|
  {
    Removal(Filter(Not(Mine(user)), orders[..j]), orders[j..], Mine(user), side, price)
  }

  lemma ThinStep(orders: seq<Order>, user: User, j: nat, side: Side, price: Price)
    requires j < |orders| && NoDup(Ids(orders))
    ensures var o, now, next := orders[j], Thinned(orders, user, j), Thinned(orders, user, j + 1);
            if o.tag.user == user then
              && FindOrder(now, o.tag.id) == Some(o)
              && Filter(Not(HasId(o.tag.id)), now) == next
              && Ahead(orders, user, j, side, price)
                 == [LevelChanged(side, price, Sum(Visible, next)), Cancelled(o.tag)] + Ahead(orders, user, j + 1, side, price)
            else
              next == now && Ahead(orders, user, j + 1, side, price) == Ahead(orders, user, j, side, price)
  {
    hide Filter, Removal, FindOrder, Ids, NoDup, Sum;
    RemovalStep(orders, user, j, side, price);
    SplitAt(orders, j);
    assert orders[j..] == [orders[j]] + orders[j + 1..];
  }

  lemma ThinEnds(orders: seq<Order>, user: User, side: Side, price: Price)
    ensures Thinned(orders, user, 0) == orders
    ensures Thinned(orders, user, |orders|) == Filter(Not(Mine(user)), orders)
    ensures Ahead(orders, user, 0, side, price) == Removal([], orders, Mine(user), side, price)
    ensures Ahead(orders, user, |orders|, side, price) == []
  {
    assert orders[..|orders|] == orders && orders[|orders|..] == [] && orders[..0] == [] && orders[0..] == orders;
  }

  /** Matching keeps ids distinct. */
  lemma MatchKeepsDistinct(q: nat, orders: seq<Order>, back: bool)
    requires NoDup(Ids(orders))
    ensures NoDup(Ids(MatchLevel(q, orders, back).orders))
  {
    var out := MatchLevel(q, orders, back).orders;
    forall i, j | 0 <= i < j < |out| ensures Ids(out)[i] != Ids(out)[j] {
      DistinctPair(q, orders, back, i, j);
    }
  }

  function OfId(id: Id): Tag -> nat {
    (t: Tag) => if t.id == id then 1 else 0
  }

  lemma {:induction false} CountIds(orders: seq<Order>, id: Id)
    requires NoDup(Ids(orders))
    ensures Sum(OfTag(OfId(id)), orders) <= 1
  {
    if orders != [] {
      assert Ids(orders)[1..] == Ids(orders[1..]);
      CountIds(orders[1..], id);
      if orders[0].tag.id == id {
        forall o | o in orders[1..] ensures o.tag.id != id {
          var j :| 0 <= j < |orders[1..]| && orders[1..][j] == o;
          assert Ids(orders)[j + 1] != Ids(orders)[0];
        }
        SumZero(OfTag(OfId(id)), orders[1..]);
      }
    }
  }

  lemma DistinctPair(q: nat, orders: seq<Order>, back: bool, i: nat, j: nat)
    requires NoDup(Ids(orders)) && i < j < |MatchLevel(q, orders, back).orders|
    ensures MatchLevel(q, orders, back).orders[i].tag.id != MatchLevel(q, orders, back).orders[j].tag.id
  {
    hide MatchLevel;
    var out := MatchLevel(q, orders, back).orders;
    var id := out[i].tag.id;
    CountIds(orders, id);
    MatchConservesMakers(OfId(id), q, orders, back);
    if out[j].tag.id == id {
      CountTwoIds(out, i, j);
    }
  }

  lemma CountTwoIds(orders: seq<Order>, i: nat, j: nat)
    requires i < j < |orders| && orders[i].tag.id == orders[j].tag.id
    ensures Sum(OfTag(OfId(orders[i].tag.id)), orders) >= 2
  {
    var f := OfTag(OfId(orders[i].tag.id));
    SumAppend(f, orders[..j], orders[j..]);
    assert orders == orders[..j] + orders[j..];
    SumElement(f, orders[..j], i);
    SumElement(f, orders[j..], 0);
  }

  // ---- The match result ----

  lemma {:induction false} AddTradesApart(m: MatchResult, ts: seq<Trade>, filled: seq<Id>)
    ensures AddTrades(m.(filled := filled), ts) == AddTrades(m, ts).(filled := filled)
    decreases |ts|
  {
    if ts != [] {
      AddTradesApart(AddTrade(m, ts[0]), ts[1..], filled);
      assert AddTrade(m.(filled := filled), ts[0]) == AddTrade(m, ts[0]).(filled := filled);
    }
  }

  /** The result of the walked levels. */
  function ResultOf(slot: nat, levels: seq<Level>, done: seq<Visit>): MatchResult
    requires |done| <= |levels|
  {
    AddTrades(MatchResult(slot, [], []), Trades(levels, done)).(filled := Ids(AllFilled(done)))
  }

  lemma ResultMore(slot: nat, levels: seq<Level>, done: seq<Visit>, v: Visit)
    requires |done| < |levels|
    ensures var m := ResultOf(slot, levels, done);
            ResultOf(slot, levels, done + [v])
            == AddTrades(m, Priced(levels[|done|].price, v.fills)).(filled := m.filled + Ids(v.filled))
  {
    hide Trades, AllFilled, AddTrades, Priced;
    var start, ts, more := MatchResult(slot, [], []), Trades(levels, done), Priced(levels[|done|].price, v.fills);
    TradesMore(levels, done, v);
    EffectsMore(done, v);
    IdsSum(AllFilled(done), v.filled);
    AddTradesThen(start, ts, more);
    AddTradesApart(AddTrades(start, ts), more, Ids(AllFilled(done)));
  }

  lemma AddTradesThen(m: MatchResult, a: seq<Trade>, b: seq<Trade>)
    ensures AddTrades(m, a + b) == AddTrades(AddTrades(m, a), b)
  {
    FoldAppend(AddTrade, m, a, b);
  }

  /** Record the trades and filled makers of one level in the result. */
  method RecordFills(result: MatchResult, price: Price, fills: seq<Fill>, filled: seq<Order>) returns (out: MatchResult)
    ensures out == AddTrades(result, Priced(price, fills)).(filled := result.filled + Ids(filled))
  {
    out := result;
    for i := 0 to |fills|
      invariant out == AddTrades(result, Priced(price, fills[..i]))
    {
      var trade := Trade(fills[i].maker, fills[i].owner, price, fills[i].quantity);
      assert Priced(price, fills[..i + 1]) == Priced(price, fills[..i]) + [trade];
      AddTradesThen(result, Priced(price, fills[..i]), [trade]);
      assert [trade] + [] == [trade];
      FoldCons(AddTrade, out, trade, []);
      out := AddTrade(out, trade);
    }
    assert fills[..|fills|] == fills;
    AddTradesApart(result, Priced(price, fills), result.filled);
    for i := 0 to |filled|
      invariant out == AddTrades(result, Priced(price, fills)).(filled := result.filled + Ids(filled[..i]))
    {
      assert Ids(filled[..i + 1]) == Ids(filled[..i]) + [filled[i].tag.id];
      out := out.(filled := out.filled + [filled[i].tag.id]);
    }
    assert filled[..|filled|] == filled;
  }

  // ---- Removing emptied levels ----

  function Besides(prices: seq<Price>): Level -> bool {
    (l: Level) => l.price !in prices
  }

  lemma {:induction false} BesidesMore(levels: seq<Level>, prices: seq<Price>, p: Price)
    ensures Filter(Besides([p]), Filter(Besides(prices), levels)) == Filter(Besides(prices + [p]), levels)
  {
    if levels != [] {
      BesidesMore(levels[1..], prices, p);
      var rest := Filter(Besides(prices), levels[1..]);
      if Besides(prices)(levels[0]) {
        assert ([levels[0]] + rest)[1..] == rest;
      }
    }
  }

  lemma {:induction false} BesidesPrunes(levels: seq<Level>, prices: seq<Price>)
    requires forall l <- levels :: l.price in prices <==> l.orders == []
    ensures Filter(Besides(prices), levels) == Prune(levels)
  {
    if levels != [] {
      assert levels[0] in levels && forall l <- levels[1..] :: l in levels;
      BesidesPrunes(levels[1..], prices);
    }
  }

  // ---- The loop of the sweep ----

  /** The walk so far: `done` levels are behind, and either the walk ended or the rest of it
      is the sweep of the levels ahead. */
  predicate Walking(cfg: Config, tk: Taker, levels: seq<Level>, start: StopCondition, done: seq<Visit>,
                    stop: StopCondition, over: bool, stpCancelled: bool, rejected: bool)
  {
    && |done| <= |levels|
    && var w := Sweep(cfg, tk, levels, start);
       if over then w == Walk(done, stop, stpCancelled, rejected)
       else !stpCancelled && !rejected && w == Splice(done, Sweep(cfg, tk, levels[|done|..], stop))
  }

  lemma WalkStarts(cfg: Config, tk: Taker, levels: seq<Level>, start: StopCondition)
    ensures Walking(cfg, tk, levels, start, [], start, false, false, false)
  {
    hide Sweep;
    assert levels[0..] == levels;
  }

  lemma WalkEnds(cfg: Config, tk: Taker, levels: seq<Level>, start: StopCondition, done: seq<Visit>, stop: StopCondition)
    requires Walking(cfg, tk, levels, start, done, stop, false, false, false)
    requires |done| == |levels|
             || !Within(tk.side, tk.limit, levels[|done|].price)
             || LevelCap(stop, levels[|done|].price, LotSize(cfg)) == 0
    ensures Walking(cfg, tk, levels, start, done, stop, true, false, false)
  {
    hide Sweep;
    SweepUnfolds(cfg, tk, levels[|done|..], stop);
    assert done + [] == done;
  }

  lemma WalkProbes(cfg: Config, tk: Taker, levels: seq<Level>, start: StopCondition, done: seq<Visit>, stop: StopCondition)
    requires Walking(cfg, tk, levels, start, done, stop, false, false, false)
    requires |done| < |levels| && tk.postOnly
    requires Within(tk.side, tk.limit, levels[|done|].price) && LevelCap(stop, levels[|done|].price, LotSize(cfg)) > 0
    ensures if Sum(Drawable, levels[|done|].orders) > 0 then Walking(cfg, tk, levels, start, done, stop, true, false, true)
            else Walking(cfg, tk, levels, start, done + [Untouched(levels[|done|])], stop, false, false, false)
  {
    hide Sweep, LevelCap, LotSize;
    SweepUnfolds(cfg, tk, levels[|done|..], stop);
    assert done + [] == done;
    assert levels[|done|..][1..] == levels[|done| + 1..];
    var v, rest := Untouched(levels[|done|]), Sweep(cfg, tk, levels[|done| + 1..], stop).visits;
    assert done + ([v] + rest) == done + [v] + rest;
  }

  lemma WalkVisits(cfg: Config, tk: Taker, levels: seq<Level>, start: StopCondition, done: seq<Visit>, stop: StopCondition)
    requires Walking(cfg, tk, levels, start, done, stop, false, false, false)
    requires |done| < |levels| && !tk.postOnly
    requires Within(tk.side, tk.limit, levels[|done|].price) && LevelCap(stop, levels[|done|].price, LotSize(cfg)) > 0
    ensures var v := VisitLevel(cfg, tk, levels[|done|], LevelCap(stop, levels[|done|].price, LotSize(cfg)));
            var next := Consume(stop, v.executed, levels[|done|].price);
            Walking(cfg, tk, levels, start, done + [v], next, v.halts || Done(next), v.halts, false)
  {
    hide Sweep, LevelCap, LotSize, VisitLevel, Consume;
    SweepUnfolds(cfg, tk, levels[|done|..], stop);
    assert levels[|done|..][1..] == levels[|done| + 1..];
    var v := VisitLevel(cfg, tk, levels[|done|], LevelCap(stop, levels[|done|].price, LotSize(cfg)));
    var next := Consume(stop, v.executed, levels[|done|].price);
    var rest := Sweep(cfg, tk, levels[|done| + 1..], next).visits;
    assert done + ([v] + rest) == done + [v] + rest;
  }

  /** The prices whose levels the walk left empty. */
  predicate Emptied(levels: seq<Level>, done: seq<Visit>, prices: seq<Price>)
    requires |done| <= |levels|
  {
    forall l <- After(levels, done) :: l.price in prices <==> l.orders == []
  }

  lemma EmptiedMore(side: Side, levels: seq<Level>, done: seq<Visit>, v: Visit, prices: seq<Price>)
    requires |done| < |levels| && Emptied(levels, done, prices) && BestFirst(side, levels)
    requires levels[|done|].orders != []
    ensures Emptied(levels, done + [v], if v.orders == [] then prices + [levels[|done|].price] else prices)
  {
    hide After;
    var k, out, more := |done|, After(levels, done), After(levels, done + [v]);
    var prices' := if v.orders == [] then prices + [levels[k].price] else prices;
    AfterMore(levels, done, v);
    forall l | l in more ensures l.price in prices' <==> l.orders == [] {
      var i :| 0 <= i < |more| && more[i] == l;
      assert out[i] in out && out[k] in out;
      assert i != k ==> levels[i].price != levels[k].price;
    }
  }

  // ---- Adding ----

  lemma AddUnfolds(c: Core, o: Order, now: nat)
    ensures var x := Add(c, o, now);
            match Refusal(c, o, now)
            case Some(e) => x == Outcome(c, [], Err(e))
            case None =>
              var m := Match(c, TakerOf(o), BaseQty(TotalQuantity(o)));
              match m.reply
              case Err(e) => x == Outcome(m.core, m.effects, Err(e))
              case Ok(r) =>
                var y := Finish(m.core, o, [], r);
                x == Outcome(y.core, m.effects + y.effects, y.reply)
  {
    hide Match, Refusal, Finish;
    var m := Match(c, TakerOf(o), BaseQty(TotalQuantity(o)));
    if m.reply.Ok? {
      FinishPrefix(m.core, o, m.effects, m.reply.value);
    }
  }
}
