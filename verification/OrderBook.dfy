/** The book as the engine keeps it: fields changed in place by its methods. Every method
    is proved against the function that describes it. `Valid` carries ordered queues, exact
    indexes and a best-price cache that agrees with the levels. */
module Books {
  import opened Types
  import opened Seqs
  import opened Orders
  import opened Levels
  import opened Stp
  import opened Effects
  import opened Matching
  import opened SweepLaws
  import opened Engine
  import opened CoreLaws
  import opened Runs
  import opened Cache
  import opened Ledgers
  import opened InPlace
  import opened SnapshotLaws
  import opened BudgetLaws
  import opened SelfCross
  import opened OpLaws
  import opened MassCancelLaws
  import opened Snapshots
  import opened Replays

  class OrderBook {
    const cache: PriceLevelCache
    var cfg: Config
    var bids: seq<Level>
    var asks: seq<Level>
    var orderLocations: map<Id, Location>
    var userOrders: map<User, seq<Id>>
    var killSwitch: bool
    var marketClose: Option<nat>
    /** What the two listeners received, and the next outbound number. */
    var events: seq<Event>
    var engineSeq: nat
    /** The tags of the resting orders. */
    ghost var registry: map<Id, Tag>

    // ---- Abstraction ----

    ghost function Heart(): Core
      reads this
    {
      Core(cfg, bids, asks, orderLocations, killSwitch, marketClose)
    }

    /** Everything but the indexes and the feed. */
    ghost function Shelves(): Core
      reads this
    {
      Core(cfg, bids, asks, map[], killSwitch, marketClose)
    }

    ghost function Account(): Ledger
      reads this
    {
      Ledger(orderLocations, registry, userOrders, Feed(events, engineSeq))
    }

    ghost function View(): Book
      reads this
    {
      Book(Heart(), registry, userOrders, Feed(events, engineSeq))
    }

    ghost predicate Fresh()
      reads this, cache
    {
      cache.Coherent(BestPrice(bids), BestPrice(asks))
    }

    ghost predicate Valid()
      reads this, cache
    {
      Sound(View()) && Fresh()
    }

    constructor (config: Config)
      ensures Valid() && View() == Empty(config) && fresh(cache)
    {
      cache := new PriceLevelCache();
      cfg, bids, asks, orderLocations, userOrders := config, [], [], map[], map[];
      killSwitch, marketClose, events, engineSeq, registry := false, None, [], 0, map[];
      new;
      EmptyInv(config);
    }

    function SideLevels(side: Side): seq<Level>
      reads this
    {
      if side.Buy? then bids else asks
    }

    method SetSide(side: Side, levels: seq<Level>)
      modifies this`bids, this`asks
      ensures Shelves() == old(WithSide(Shelves(), side, levels))
    {
      if side.Buy? {
        bids := levels;
      } else {
        asks := levels;
      }
    }

    // ---- Best prices through the cache ----

    method BestBid() returns (best: Option<Price>)
      requires Fresh()
      modifies cache
      ensures Fresh() && best == BestPrice(bids)
      ensures Sound(View()) ==> IsBest(Buy, bids, best)
    {
      hide Sound;
      BestOfBook(View(), Buy);
      var cached := cache.GetCachedBestBid();
      if cached.Some? {
        return cached;
      }
      best := BestPrice(bids);
      cache.UpdateBestBid(best);
    }

    method BestAsk() returns (best: Option<Price>)
      requires Fresh()
      modifies cache
      ensures Fresh() && best == BestPrice(asks)
      ensures Sound(View()) ==> IsBest(Sell, asks, best)
    {
      hide Sound;
      BestOfBook(View(), Sell);
      var cached := cache.GetCachedBestAsk();
      if cached.Some? {
        return cached;
      }
      best := BestPrice(asks);
      cache.UpdateBestAsk(best);
    }

    method WillCrossMarket(price: Price, side: Side) returns (crosses: bool)
      requires Fresh()
      modifies cache
      ensures Fresh() && crosses == WillCross(Heart(), price, side)
    {
      if side.Buy? {
        var best := BestAsk();
        crosses := best.Some? && price >= best.value;
      } else {
        var best := BestBid();
        crosses := best.Some? && price <= best.value;
      }
    }

    // ---- Events and indexes ----

    method NextEngineSeq() returns (number: nat)
      modifies this`engineSeq
      ensures number == old(engineSeq) && engineSeq == number + 1
    {
      number := engineSeq;
      engineSeq := engineSeq + 1;
    }

    method NotifyLevel(side: Side, price: Price, quantity: nat)
      modifies this`events, this`engineSeq
      ensures Account() == Post(old(Account()), [LevelChanged(side, price, quantity)])
    {
      var number := NextEngineSeq();
      events := events + [LevelEvent(number, side, price, quantity)];
      PostOne(old(Account()), LevelChanged(side, price, quantity));
    }

    method NotifyTrade(taker: Id, trades: seq<Trade>)
      modifies this`events, this`engineSeq
      ensures Account() == Post(old(Account()), [Traded(taker, trades)])
    {
      var number := NextEngineSeq();
      events := events + [TradeEvent(number, taker, trades)];
      PostOne(old(Account()), Traded(taker, trades));
    }

    /** Add to the location index and the owner's list. */
    method TrackResting(tag: Tag)
      modifies this`orderLocations, this`userOrders, this`registry
      ensures Account() == Post(old(Account()), [Rested(tag)])
    {
      orderLocations := orderLocations[tag.id := Location(tag.price, tag.side)];
      registry := registry[tag.id := tag];
      userOrders := userOrders[tag.user := ListOf(userOrders, tag.user) + [tag.id]];
      PostOne(old(Account()), Rested(tag));
    }

    /** Drop an id from the list of a known owner. */
    method UntrackUserOrder(user: User, id: Id)
      modifies this`userOrders
      ensures userOrders == old(if user in userOrders then SetList(userOrders, user, Filter(IsNot(id), userOrders[user])) else userOrders)
    {
      if user in userOrders {
        var kept := Filter(IsNot(id), userOrders[user]);
        if kept == [] {
          userOrders := userOrders - {user};
        } else {
          userOrders := userOrders[user := kept];
        }
      }
    }

    /** Drop an id whose owner is not at hand: scan the lists, swap it out of the one that
        holds it. */
    method UntrackOrderById(id: Id)
      requires Tracks(userOrders, registry) && id in registry
      modifies this`userOrders
      ensures userOrders == old(Untrack(userOrders, registry[id].user, id))
    {
      var pending := userOrders.Keys;
      while pending != {}
        invariant pending <= userOrders.Keys
        invariant userOrders == old(userOrders)
        invariant registry[id].user in pending
        decreases |pending|
      {
        var user :| user in pending;
        var ids := userOrders[user];
        var k := IndexOf(ids, id);
        if k < |ids| {
          assert ids[k] in ids;
          var left := SwapRemove(ids, k);
          userOrders := if left == [] then userOrders - {user} else userOrders[user := left];
          return;
        }
        pending := pending - {user};
      }
    }

    method ForgetCancelled(tag: Tag)
      modifies this`orderLocations, this`userOrders, this`registry
      ensures Account() == Post(old(Account()), [Cancelled(tag)])
    {
      orderLocations := orderLocations - {tag.id};
      registry := registry - {tag.id};
      UntrackUserOrder(tag.user, tag.id);
      PostOne(old(Account()), Cancelled(tag));
    }

    /** Drop a filled maker or an order withdrawn by an update. */
    method ForgetById(id: Id, ghost e: Effect)
      requires Tracks(userOrders, registry) && id in registry
      requires (e.Filled? || e.Withdrawn?) && e.tag == registry[id] && e.tag.id == id
      modifies this`orderLocations, this`userOrders, this`registry
      ensures Account() == Post(old(Account()), [e])
    {
      hide Tracks, Untrack, Post;
      orderLocations := orderLocations - {id};
      UntrackOrderById(id);
      registry := registry - {id};
      PostForgotten(old(Account()), e);
    }

    // ---- One level of the sweep ----

    /** Cancel one resting maker on a level that stays in the map. */
    method CancelRestingMakerOnLevel(side: Side, k: nat, id: Id)
      requires k < |SideLevels(side)|
      modifies this, cache
      ensures var level := old(SideLevels(side)[k]);
              var left := Filter(Not(HasId(id)), level.orders);
              var found := FindOrder(level.orders, id);
              && (found.None? ==> Shelves() == old(Shelves()) && Account() == old(Account()))
              && (found.Some? ==>
                    && Shelves() == old(WithSide(Shelves(), side, SideLevels(side)[k := Level(level.price, left)]))
                    && Account() == Post(old(Account()), [LevelChanged(side, level.price, Sum(Visible, left)), Cancelled(found.value.tag)]))
      ensures old(cache.Void()) ==> cache.Void()
    {
      var level := SideLevels(side)[k];
      var found := FindOrder(level.orders, id);
      if found.None? {
        return;
      }
      var left := Filter(Not(HasId(id)), level.orders);
      SetSide(side, SideLevels(side)[k := Level(level.price, left)]);
      cache.Invalidate();
      NotifyLevel(side, level.price, Sum(Visible, left));
      ForgetCancelled(found.value.tag);
      PostThen(old(Account()), [LevelChanged(side, level.price, Sum(Visible, left))], [Cancelled(found.value.tag)]);
    }

    /** Match against the queue of a level and announce the level when anything traded. */
    method MatchOnLevel(side: Side, k: nat, quantity: nat) returns (m: LevelMatch)
      requires k < |SideLevels(side)|
      modifies this`bids, this`asks, this`events, this`engineSeq
      ensures var level := old(SideLevels(side)[k]);
              && m == MatchLevel(quantity, level.orders, cfg.requeueBack)
              && Shelves() == old(WithSide(Shelves(), side, SideLevels(side)[k := Level(level.price, m.orders)]))
              && Account() == Post(old(Account()), Announce(side, level.price, m))
    {
      hide MatchLevel;
      var level := SideLevels(side)[k];
      m := MatchLevel(quantity, level.orders, cfg.requeueBack);
      SetSide(side, SideLevels(side)[k := Level(level.price, m.orders)]);
      if m.fills != [] {
        NotifyLevel(side, level.price, Sum(Visible, m.orders));
      }
      PostNone(old(Account()));
    }

    /** Cancel every maker of the taker's user on a level, in queue order. */
    method CancelOwnMakers(side: Side, k: nat, user: User)
      requires k < |SideLevels(side)| && NoDup(Ids(SideLevels(side)[k].orders))
      modifies this, cache
      ensures var level := old(SideLevels(side)[k]);
              && Shelves() == old(WithSide(Shelves(), side, SideLevels(side)[k := Level(level.price, Filter(Not(Mine(user)), level.orders))]))
              && Account() == Post(old(Account()), Removal([], level.orders, Mine(user), side, level.price))
      ensures old(cache.Void()) ==> cache.Void()
    {
      hide Post, Removal, Filter, Ids, NoDup, FindOrder, Thinned, Ahead, Sum;
      ghost var before, account := Shelves(), Account();
      ghost var levels := SideLevels(side);
      var orders, price := SideLevels(side)[k].orders, SideLevels(side)[k].price;
      ghost var es: seq<Effect> := [];
      PostNone(account);
      ThinEnds(orders, user, side, price);
      assert levels[k := Level(price, orders)] == levels;
      for j := 0 to |orders|
        invariant k < |SideLevels(side)|
        invariant Shelves() == WithSide(before, side, levels[k := Level(price, Thinned(orders, user, j))])
        invariant Account() == Post(account, es)
        invariant Removal([], orders, Mine(user), side, price) == es + Ahead(orders, user, j, side, price)
        invariant old(cache.Void()) ==> cache.Void()
      {
        ThinStep(orders, user, j, side, price);
        if orders[j].tag.user == user {
          CancelRestingMakerOnLevel(side, k, orders[j].tag.id);
          ghost var more := [LevelChanged(side, price, Sum(Visible, Thinned(orders, user, j + 1))), Cancelled(orders[j].tag)];
          PostThen(account, es, more);
          es := es + more;
        }
      }
      assert es + [] == es;
    }

    /** Match up to a quantity that may be zero, on a queue that may be empty. */
    method MatchUpTo(side: Side, k: nat, quantity: nat) returns (executed: nat, fills: seq<Fill>, filled: seq<Order>)
      requires k < |SideLevels(side)|
      modifies this`bids, this`asks, this`events, this`engineSeq
      ensures var level := old(SideLevels(side)[k]);
              var v := MatchVisit(quantity, level.orders, cfg.requeueBack, side, level.price, false);
              && executed == v.executed && fills == v.fills && filled == v.filled
              && Shelves() == old(WithSide(Shelves(), side, SideLevels(side)[k := Level(level.price, v.orders)]))
              && Account() == Post(old(Account()), v.effects)
    {
      hide Post, MatchLevel;
      var level := SideLevels(side)[k];
      MatchTrivial(level.orders, quantity, cfg.requeueBack);
      if quantity > 0 && level.orders != [] {
        var m := MatchOnLevel(side, k, quantity);
        executed, fills, filled := SatSub(quantity, m.remaining), m.fills, m.filled;
      } else {
        executed, fills, filled := 0, [], [];
        PostNone(Account());
        assert SideLevels(side)[k := Level(level.price, level.orders)] == SideLevels(side);
      }
    }

    /** Remove the taker's own makers, then match what is left. */
    method MatchWithoutOwn(side: Side, k: nat, user: User, cap: nat) returns (executed: nat, fills: seq<Fill>, filled: seq<Order>)
      requires k < |SideLevels(side)| && NoDup(Ids(SideLevels(side)[k].orders))
      modifies this, cache
      ensures var level := old(SideLevels(side)[k]);
              var v := MatchVisit(cap, Filter(Not(Mine(user)), level.orders), old(cfg).requeueBack, side, level.price, false);
              && executed == v.executed && fills == v.fills && filled == v.filled
              && Shelves() == old(WithSide(Shelves(), side, SideLevels(side)[k := Level(level.price, v.orders)]))
              && Account() == Post(old(Account()), Removal([], level.orders, Mine(user), side, level.price) + v.effects)
      ensures old(cache.Void()) ==> cache.Void()
    {
      hide Post, Removal, Filter, MatchVisit, Ids, NoDup;
      var level := SideLevels(side)[k];
      CancelOwnMakers(side, k, user);
      executed, fills, filled := MatchUpTo(side, k, cap);
      ghost var v := MatchVisit(cap, Filter(Not(Mine(user)), level.orders), cfg.requeueBack, side, level.price, false);
      PostThen(old(Account()), Removal([], level.orders, Mine(user), side, level.price), v.effects);
    }

    /** Match the safe quantity, then cancel the first of the taker's own makers. */
    method MatchAndCancel(side: Side, k: nat, quantity: nat, maker: Id) returns (executed: nat, fills: seq<Fill>, filled: seq<Order>)
      requires k < |SideLevels(side)| && NoDup(Ids(SideLevels(side)[k].orders))
      modifies this, cache
      ensures var level := old(SideLevels(side)[k]);
              var v := MatchVisit(quantity, level.orders, old(cfg).requeueBack, side, level.price, false);
              && executed == v.executed && fills == v.fills && filled == v.filled
              && Shelves() == old(WithSide(Shelves(), side, SideLevels(side)[k := Level(level.price, Filter(Not(HasId(maker)), v.orders))]))
              && Account() == Post(old(Account()), v.effects + Removal([], v.orders, HasId(maker), side, level.price))
      ensures old(cache.Void()) ==> cache.Void()
    {
      hide Post, Removal, Filter, MatchVisit, Ids, NoDup, FindOrder;
      var level := SideLevels(side)[k];
      ghost var v := MatchVisit(quantity, level.orders, cfg.requeueBack, side, level.price, false);
      ghost var account := Account();
      executed, fills, filled := MatchUpTo(side, k, quantity);
      VisitKeepsDistinct(quantity, level.orders, cfg.requeueBack, side, level.price);
      RemovalOfOne(v.orders, maker, side, level.price);
      CancelRestingMakerOnLevel(side, k, maker);
      PostThen(account, v.effects, Removal([], v.orders, HasId(maker), side, level.price));
      PostNone(Post(account, v.effects));
    }

    /** Visit one level: resolve self-trade conflicts, then match. */
    method VisitInPlace(tk: Taker, k: nat, cap: nat) returns (executed: nat, fills: seq<Fill>, filled: seq<Order>, halts: bool)
      requires k < |SideLevels(tk.side.Opposite())| && NoDup(Ids(SideLevels(tk.side.Opposite())[k].orders))
      modifies this, cache
      ensures var side := tk.side.Opposite();
              var level := old(SideLevels(side)[k]);
              var v := VisitLevel(old(cfg), tk, level, cap);
              && executed == v.executed && fills == v.fills && filled == v.filled && halts == v.halts
              && Shelves() == old(WithSide(Shelves(), side, SideLevels(side)[k := Level(level.price, v.orders)]))
              && Account() == Post(old(Account()), v.effects)
      ensures old(cache.Void()) ==> cache.Void()
    {
      hide Post, Removal, Filter, Ids, NoDup, Decide, MatchLevel, Announce;
      var side := tk.side.Opposite();
      var level := SideLevels(side)[k];
      var action := CheckStpAtLevel(level.orders, tk.user, cfg.stp);
      match action {
        case NoConflict =>
          halts := false;
          executed, fills, filled := MatchUpTo(side, k, cap);
        case StopTaker(safe) =>
          halts := true;
          executed, fills, filled := MatchUpTo(side, k, Min(cap, safe));
        case RemoveMakers =>
          halts := false;
          executed, fills, filled := MatchWithoutOwn(side, k, tk.user, cap);
        case StopBoth(safe, maker) =>
          halts := true;
          executed, fills, filled := MatchAndCancel(side, k, Min(cap, safe), maker);
      }
    }

    // ---- The sweep ----

    /** Walk the opposite side level by level. */
    method SweepInPlace(tk: Taker, start: StopCondition)
      returns (result: MatchResult, filled: seq<Order>, emptied: seq<Price>, stpCancelled: bool, rejected: bool)
      requires var side := tk.side.Opposite();
               && BestFirst(side, SideLevels(side))
               && forall l <- SideLevels(side) :: l.orders != [] && NoDup(Ids(l.orders))
      modifies this, cache
      ensures var side, levels := tk.side.Opposite(), old(SideLevels(tk.side.Opposite()));
              var w := Sweep(old(cfg), tk, levels, start);
              && stpCancelled == w.stpCancelled && rejected == w.rejected
              && result == ResultOf(Slot(start), levels, w.visits)
              && filled == AllFilled(w.visits)
              && Emptied(levels, w.visits, emptied)
              && Shelves() == old(WithSide(Shelves(), side, After(levels, w.visits)))
              && Account() == Post(old(Account()), WalkEffects(w.visits))
      ensures old(cache.Void()) ==> cache.Void()
    {
      hide Post, Sweep, VisitLevel, LevelCap, LotSize, Consume, Ids, NoDup, BestFirst, After, ResultOf,
        WalkEffects, AllFilled, Emptied, Walking, AddTrades, Priced, Within;
      var side := tk.side.Opposite();
      ghost var levels, account, shelves, config := SideLevels(side), Account(), Shelves(), cfg;
      result, filled, emptied, stpCancelled, rejected := MatchResult(Slot(start), [], []), [], [], false, false;
      var stop, i, over := start, 0, false;
      ghost var done: seq<Visit> := [];
      WalkStarts(cfg, tk, levels, start);
      SweepBegins(start, levels, account);
      while i < |SideLevels(side)| && !over
        invariant i == |done| || over
        invariant |done| <= |levels| == |SideLevels(side)|
        invariant Walking(config, tk, levels, start, done, stop, over, stpCancelled, rejected)
        invariant !over ==> !stpCancelled && !rejected
        invariant result == ResultOf(Slot(start), levels, done)
        invariant filled == AllFilled(done)
        invariant Emptied(levels, done, emptied)
        invariant Shelves() == WithSide(shelves, side, After(levels, done))
        invariant Account() == Post(account, WalkEffects(done))
        invariant old(cache.Void()) ==> cache.Void()
        decreases |levels| - i, !over
      {
        assert SideLevels(side) == After(levels, done) && cfg == config;
        assert SideLevels(side)[i] == levels[i] && levels[i] in levels;
        var price := SideLevels(side)[i].price;
        var cap := LevelCap(stop, price, LotSize(cfg));
        if !Within(tk.side, tk.limit, price) || cap == 0 {
          WalkEnds(cfg, tk, levels, start, done, stop);
          over := true;
        } else if tk.postOnly {
          WalkProbes(cfg, tk, levels, start, done, stop);
          if Sum(Drawable, SideLevels(side)[i].orders) > 0 {
            rejected, over := true, true;
          } else {
            ghost var v := Untouched(levels[i]);
            UntouchedMore(Slot(start), levels, done, account, side, emptied);
            done := done + [v];
            i := i + 1;
          }
        } else {
          ghost var v := VisitLevel(cfg, tk, levels[i], cap);
          WalkVisits(cfg, tk, levels, start, done, stop);
          var executed, fills, gone, halts := VisitInPlace(tk, i, cap);
          result := RecordFills(result, price, fills, gone);
          filled := filled + gone;
          ghost var was := emptied;
          if SideLevels(side)[i].orders == [] {
            emptied := emptied + [price];
          }
          stop := Consume(stop, executed, price);
          stpCancelled, over := halts, halts || Done(stop);
          EffectsMore(done, v);
          ResultMore(Slot(start), levels, done, v);
          AfterMore(levels, done, v);
          EmptiedMore(side, levels, done, v, was);
          PostThen(account, WalkEffects(done), v.effects);
          done := done + [v];
          i := i + 1;
        }
      }
      if !over {
        WalkEnds(config, tk, levels, start, done, stop);
      }
      WalkOver(config, tk, levels, start, done, stop, stpCancelled, rejected);
    }

    /** Remove the levels at the given prices. */
    method DropLevels(side: Side, prices: seq<Price>)
      modifies this`bids, this`asks
      ensures Shelves() == old(WithSide(Shelves(), side, Filter(Besides(prices), SideLevels(side))))
    {
      ghost var levels := SideLevels(side);
      FilterAll(Besides([]), levels);
      for i := 0 to |prices|
        invariant Shelves() == old(WithSide(Shelves(), side, Filter(Besides(prices[..i]), levels)))
      {
        BesidesMore(levels, prices[..i], prices[i]);
        assert prices[..i + 1] == prices[..i] + [prices[i]];
        SetSide(side, Filter(Besides([prices[i]]), SideLevels(side)));
      }
      assert prices[..|prices|] == prices;
    }

    /** Drop every filled maker from the indexes. */
    method ForgetFilled(filled: seq<Order>)
      requires Tracks(userOrders, registry) && Keyed(registry) && Legal(registry, FilledEffects(filled))
      modifies this`orderLocations, this`userOrders, this`registry
      ensures Account() == Post(old(Account()), FilledEffects(filled))
    {
      hide Post, Tracks, Keyed, Legal, FilledEffects;
      ghost var account := Account();
      FilledNone(account, filled);
      for i := 0 to |filled|
        invariant Tracks(userOrders, registry) && Keyed(registry) && Legal(registry, FilledEffects(filled[i..]))
        invariant Account() == Post(account, FilledEffects(filled[..i]))
      {
        FilledStep(userOrders, registry, account, filled, i);
        ForgetById(filled[i].tag.id, Filled(filled[i].tag));
        PostOne(Post(account, FilledEffects(filled[..i])), Filled(filled[i].tag));
      }
      assert filled[..|filled|] == filled;
    }

    /** Match a taker: sweep, remove emptied levels and filled makers, and reply. */
    method MatchOrderInner(tk: Taker, start: StopCondition) returns (reply: Reply<MatchReply>)
      requires Valid()
      modifies this, cache
      ensures Valid() && cache.Void()
      ensures var m := Match(old(Heart()), tk, start);
              View() == Commit(old(View()), m.core, m.effects) && reply == m.reply
    {
      hide Sound, Sweep, Match, Post, After, WalkEffects, FilledEffects, AllFilled, ResultOf, Emptied, Tracks,
        Keyed, Legal, ReplyOf, Prune, BestFirst, Ids, NoDup, Commit;
      cache.Invalidate();
      ghost var c, account := Heart(), Account();
      var side := tk.side.Opposite();
      ghost var levels := SideLevels(side);
      ghost var w := MatchWalk(c, tk, start);
      SideReady(View(), side);
      var result, filled, emptied, stpCancelled, rejected := SweepInPlace(tk, start);
      DropLevels(side, emptied);
      BesidesPrunesAll(levels, w.visits, emptied);
      MatchLegal(Account(), old(View()), tk, start);
      ForgetFilled(filled);
      PostThen(account, WalkEffects(w.visits), FilledEffects(filled));
      reply := ReplyOf(tk, start, result, stpCancelled, rejected);
      MatchAssembled(old(View()), Shelves(), Account(), tk, start, reply);
    }

    // ---- Admission ----

    /** The fill-or-kill dry run. */
    method FokFillableQuantity(tk: Taker, quantity: nat) returns (matched: nat)
      requires quantity <= U64_MAX
      ensures matched == FokWalk(cfg, tk, SideLevels(tk.side.Opposite()), quantity)
    {
      hide FokWalk, Decide, LotSize, RoundLot;
      var levels, lot := SideLevels(tk.side.Opposite()), LotSize(cfg);
      matched := 0;
      FokAtEnd(cfg, tk, levels, quantity);
      var i, over := 0, false;
      assert levels[0..] == levels;
      while i < |levels| && matched < quantity && !over
        invariant i <= |levels| && matched <= quantity
        invariant FokWalk(cfg, tk, levels, quantity) == matched + if over then 0 else FokWalk(cfg, tk, levels[i..], quantity - matched)
        decreases |levels| - i, !over
      {
        var level, needed := levels[i], quantity - matched;
        var cap := RoundLot(needed, lot);
        FokStep(cfg, tk, levels[i..], needed);
        RoundLotLaws(needed, lot);
        assert levels[i..][1..] == levels[i + 1..];
        if !Within(tk.side, tk.limit, level.price) || cap == 0 {
          over := true;
        } else {
          var action := CheckStpAtLevel(level.orders, tk.user, cfg.stp);
          var reachable;
          match action {
            case NoConflict => reachable := Executed(cap, level.orders);
            case RemoveMakers => reachable := Sum(Drawable, Filter(Not(Mine(tk.user)), level.orders));
            case StopTaker(safe) => reachable, over := safe, true;
            case StopBoth(safe, _) => reachable, over := safe, true;
          }
          matched := Sat64(matched + Min(cap, reachable));
          i := i + 1;
        }
      }
      FokAtEnd(cfg, tk, levels[i..], quantity - matched);
    }

    /** The shape checks; reading the best prices may refill the cache. */
    method ValidateOrderShape(o: Order, now: nat) returns (error: Option<Error>)
      requires Fresh() && Proper(o)
      modifies cache
      ensures Fresh() && error == Validate(Heart(), o, now)
    {
      hide FieldError, FokWalk, WillCross, OppositeBest, Proper, TotalQuantity;
      TotalFits(o);
      error := CheckFields(o, now);
      if error.Some? {
        return;
      }
      if o.kind.PostOnly? {
        var crosses := WillCrossMarket(o.tag.price, o.tag.side);
        if crosses {
          var opposite := BestOpposite(o.tag.side);
          return Some(PriceCrossing(o.tag.price, opposite));
        }
      }
      if o.tif.Fok? {
        var total := TotalQuantity(o);
        var found := FokFillableQuantity(TakerOf(o).(postOnly := false), total);
        if found < total {
          return Some(InsufficientLiquidity(total, found));
        }
      }
    }

    /** The checks that read only the order and the configuration, in order. */
    method CheckFields(o: Order, now: nat) returns (error: Option<Error>)
      ensures error == FieldError(Heart(), o, now)
    {
      hide LotError, Expired, CheckedTotal, TotalQuantity;
      var total := TotalQuantity(o);
      if CheckedTotal(o).None? {
        return Some(QuantityOverflow(o.visible, o.hidden));
      }
      if cfg.stp != Off && o.tag.user == ANONYMOUS {
        return Some(MissingUserId(o.tag.id));
      }
      if cfg.tick.Some? && cfg.tick.value > 0 && o.tag.price % cfg.tick.value != 0 {
        return Some(InvalidTickSize(o.tag.price));
      }
      if cfg.lot.Some? {
        var e := LotError(cfg.lot.value, o);
        if e.Some? {
          return e;
        }
      }
      if cfg.minSize.Some? && total < cfg.minSize.value {
        return Some(OrderSizeOutOfRange(total));
      }
      if cfg.maxSize.Some? && total > cfg.maxSize.value {
        return Some(OrderSizeOutOfRange(total));
      }
      if Expired(o.tif, now, marketClose) {
        return Some(InvalidOperation);
      }
      error := None;
    }

    method BestOpposite(side: Side) returns (price: Price)
      requires Fresh()
      modifies cache
      ensures Fresh() && price == OppositeBest(Heart(), side)
    {
      var best;
      if side.Buy? {
        best := BestAsk();
      } else {
        best := BestBid();
      }
      price := if best.Some? then best.value else 0;
    }

    /** The self-cross check of a modify. */
    method CheckModifyStpSelfCross(o: Order) returns (blocked: bool)
      ensures blocked == (StopsTaker(cfg.stp, o.tag.user) && Reaches(TakerOf(o), SideLevels(o.tag.side.Opposite()), TotalQuantity(o)))
    {
      if !StopsTaker(cfg.stp, o.tag.user) {
        return false;
      }
      var tk, levels := TakerOf(o), SideLevels(o.tag.side.Opposite());
      var remaining := TotalQuantity(o);
      assert levels[0..] == levels;
      for i := 0 to |levels|
        invariant Reaches(tk, levels, TotalQuantity(o)) == Reaches(tk, levels[i..], remaining)
      {
        assert levels[i..][1..] == levels[i + 1..];
        if remaining == 0 {
          return false;
        }
        if !Within(tk.side, tk.limit, levels[i].price) {
          return false;
        }
        if exists x <- levels[i].orders :: x.tag.user == tk.user {
          return true;
        }
        remaining := SatSub(remaining, Executed(remaining, levels[i].orders));
      }
      blocked := false;
    }

    // ---- Resting ----

    /** Append an order to its level and record it. */
    method RestInPlace(o: Order) returns (reply: Reply<Order>)
      modifies this`bids, this`asks, this`events, this`engineSeq, this`orderLocations, this`userOrders, this`registry
      ensures var x := Rest(old(Heart()), o);
              View() == Commit(old(View()), x.core, x.effects) && reply == x.reply
    {
      hide Place, Post, Settle, Commit, Room;
      var side, levels := o.tag.side, SideLevels(o.tag.side);
      ghost var account, b := Account(), View();
      if !Room(levels, o) {
        CommitNone(b);
        return Err(LevelCapacity(o.tag.id));
      }
      var visible := Sum(Visible, QueueAt(levels, o.tag.price) + [o]);
      SetSide(side, Place(side, levels, o));
      NotifyLevel(side, o.tag.price, visible);
      TrackResting(o.tag);
      ghost var es := [LevelChanged(side, o.tag.price, visible), Rested(o.tag)];
      PostThen(account, [LevelChanged(side, o.tag.price, visible)], [Rested(o.tag)]);
      assert es == [LevelChanged(side, o.tag.price, visible)] + [Rested(o.tag)];
      Settled(b, side, Place(side, levels, o), es);
      assert View() == Bind(Shelves(), Account());
      reply := Ok(o);
    }

    // ---- Adding ----

    /** Report the trades, then drop or rest what is left of the order. */
    method FinishInPlace(o: Order, r: MatchReply) returns (reply: Reply<Order>)
      requires cache.Void()
      modifies this, cache
      ensures Fresh()
      ensures var x := Finish(old(Heart()), o, [], r);
              View() == Commit(old(View()), x.core, x.effects) && reply == x.reply
    {
      hide Rest, Post, Commit, Residual, OppositeBest;
      ghost var b, c := View(), Heart();
      CommitNone(b);
      if r.rejected {
        var opposite := BestOpposite(o.tag.side);
        return Err(PriceCrossing(o.tag.price, opposite));
      }
      var trades, remaining := r.result.trades, r.result.remaining;
      ghost var report := Report(o.tag.id, trades);
      if trades != [] {
        NotifyTrade(o.tag.id, trades);
      }
      PostNone(LedgerOf(b));
      Reported(b, o.tag.id, trades);
      assert View() == Bind(Shelves(), Account()) == Commit(b, c, report);
      assert [] + report == report;
      if r.stpCancelled {
        return Err(SelfTradePrevented(o.tag.id));
      }
      if remaining == 0 {
        return Ok(o);
      }
      if Immediate(o) {
        return Err(InsufficientLiquidity(o.visible, SatSub(o.visible, remaining)));
      }
      var rest := Residual(o, remaining);
      ghost var x := Rest(c, rest);
      assert Heart() == c by { CommitCore(b, c, report); }
      reply := RestInPlace(rest);
      CommitThen(b, c, report, x.core, x.effects);
    }

    /** Admit an order: checks, sweep, then rest the remainder. */
    method AddOrderInner(o: Order, now: nat) returns (reply: Reply<Order>)
      requires Valid() && Proper(o)
      modifies this, cache
      ensures Valid()
      ensures var x := Add(old(Heart()), o, now);
              View() == Commit(old(View()), x.core, x.effects) && reply == x.reply
    {
      hide Sound, Add, Match, Finish, Validate, Commit, Room, WillCross, Moves;
      ghost var b, c := View(), Heart();
      CommitNone(b);
      AddUnfolds(c, o, now);
      if killSwitch {
        return Err(KillSwitchActive);
      }
      if CheckedTotal(o).None? {
        return Err(QuantityOverflow(o.visible, o.hidden));
      }
      if o.tag.id in orderLocations {
        return Err(DuplicateOrderId(o.tag.id));
      }
      var invalid := ValidateOrderShape(o, now);
      if invalid.Some? {
        return Err(invalid.value);
      }
      if !Immediate(o) {
        var crosses := WillCrossMarket(o.tag.price, o.tag.side);
        if crosses && !Room(SideLevels(o.tag.side), o) {
          return Err(InvalidOperation);
        }
      }
      cache.Invalidate();
      assert Refusal(c, o, now).None?;
      ghost var m := Match(c, TakerOf(o), BaseQty(TotalQuantity(o)));
      var outcome := MatchOrderInner(TakerOf(o), BaseQty(TotalQuantity(o)));
      match outcome {
        case Err(e) =>
          reply := Err(e);
        case Ok(r) =>
          assert Heart() == m.core by { CommitCore(b, m.core, m.effects); }
          reply := FinishInPlace(o, r);
          ghost var y := Finish(m.core, o, [], r);
          CommitThen(b, m.core, m.effects, y.core, y.effects);
          AddSound(b, o, now);
      }
    }

    // ---- Cancelling ----

    method CancelOrderWithReason(id: Id) returns (cancelled: Option<Order>)
      modifies this, cache
      ensures cache.Void()
      ensures old(Sound(View())) ==> Valid()
      ensures var x := Cancel(old(Heart()), id);
              View() == Commit(old(View()), x.core, x.effects) && cancelled == x.reply
    {
      hide Sound, Post, Commit, Settle, FindOrder, LevelAt, PutQueue, Filter;
      ghost var b, account := View(), Account();
      CommitNone(b);
      if Sound(b) {
        CancelSound(b, id);
      }
      cache.Invalidate();
      if id !in orderLocations {
        return None;
      }
      var price, side := orderLocations[id].price, orderLocations[id].side;
      var levels := SideLevels(side);
      var level := LevelAt(levels, price);
      if level.None? {
        return None;
      }
      cancelled := FindOrder(level.value.orders, id);
      if cancelled.None? {
        return;
      }
      var queue := Filter(Not(HasId(id)), level.value.orders);
      var tag := cancelled.value.tag;
      ReplaceQueue(side, price, queue);
      cache.Invalidate();
      ForgetCancelled(tag);
      ghost var es := [LevelChanged(side, price, Sum(Visible, queue)), Cancelled(tag)];
      PostThen(account, [LevelChanged(side, price, Sum(Visible, queue))], [Cancelled(tag)]);
      assert es == [LevelChanged(side, price, Sum(Visible, queue))] + [Cancelled(tag)];
      Settled(b, side, PutQueue(levels, price, queue), es);
      assert View() == Bind(Shelves(), Account());
    }

    // ---- Updating ----

    /** The cancel variant of an update; the owner's list entry is found by id. */
    method WithdrawInPlace(id: Id) returns (withdrawn: Option<Order>)
      requires Valid() && cache.Void()
      modifies this
      ensures Valid() && cache.Void()
      ensures var x := Remove(old(Heart()), id, ByUpdate);
              View() == Commit(old(View()), x.core, x.effects) && withdrawn == x.reply
    {
      hide Sound, Post, Commit, Settle, FindOrder, LevelAt, PutQueue, Filter, Tracks;
      ghost var b, account := View(), Account();
      CommitNone(b);
      WithdrawSound(b, id);
      if id !in orderLocations {
        return None;
      }
      var price, side := orderLocations[id].price, orderLocations[id].side;
      var levels := SideLevels(side);
      var level := LevelAt(levels, price);
      if level.None? {
        return None;
      }
      withdrawn := FindOrder(level.value.orders, id);
      if withdrawn.None? {
        return;
      }
      var queue := Filter(Not(HasId(id)), level.value.orders);
      ghost var tag := withdrawn.value.tag;
      ghost var seen := LevelChanged(side, price, Sum(Visible, queue));
      ReplaceQueue(side, price, queue);
      ForgetById(id, Withdrawn(tag));
      PostThen(account, [seen], [Withdrawn(tag)]);
      assert [seen, Withdrawn(tag)] == [seen] + [Withdrawn(tag)];
      Settled(b, side, PutQueue(levels, price, queue), [seen, Withdrawn(tag)]);
      assert View() == Bind(Shelves(), Account());
    }

    /** Put a queue back into its level, which goes when the queue is empty, and announce it. */
    method ReplaceQueue(side: Side, price: Price, orders: seq<Order>)
      modifies this`bids, this`asks, this`events, this`engineSeq
      ensures Shelves() == old(WithSide(Shelves(), side, PutQueue(SideLevels(side), price, orders)))
      ensures Account() == Post(old(Account()), [LevelChanged(side, price, Sum(Visible, orders))])
      ensures var es := [LevelChanged(side, price, Sum(Visible, orders))];
              View() == Commit(old(View()), old(Settle(Heart(), side, PutQueue(SideLevels(side), price, orders), es)), es)
    {
      hide Post, Commit, Settle, PutQueue;
      ghost var b := View();
      var levels := SideLevels(side);
      SetSide(side, PutQueue(levels, price, orders));
      NotifyLevel(side, price, Sum(Visible, orders));
      Settled(b, side, PutQueue(levels, price, orders), [LevelChanged(side, price, Sum(Visible, orders))]);
      assert View() == Bind(Shelves(), Account());
    }

    /** A quantity update that leaves nothing, where the level drops such an order: the
        indexes are cleaned only when the level is gone. */
    method DropInPlace(o: Order)
      requires Tracks(userOrders, registry) && o.tag.id in registry && registry[o.tag.id] == o.tag
      modifies this
      ensures var c := old(Heart());
              var levels := SideOf(c, o.tag.side);
              var left := Filter(Not(HasId(o.tag.id)), QueueAt(levels, o.tag.price));
              var es := [LevelChanged(o.tag.side, o.tag.price, Sum(Visible, left))] + if left == [] then [Withdrawn(o.tag)] else [];
              View() == Commit(old(View()), Settle(c, o.tag.side, PutQueue(levels, o.tag.price, left), es), es)
    {
      hide Post, Commit, Settle, PutQueue, Filter, Tracks, QueueAt;
      ghost var b := View();
      var side, price := o.tag.side, o.tag.price;
      var levels := SideLevels(side);
      var left := Filter(Not(HasId(o.tag.id)), QueueAt(levels, price));
      ghost var seen := LevelChanged(side, price, Sum(Visible, left));
      ReplaceQueue(side, price, left);
      if left == [] {
        ForgetById(o.tag.id, Withdrawn(o.tag));
        PostThen(LedgerOf(b), [seen], [Withdrawn(o.tag)]);
        Settled(b, side, PutQueue(levels, price, left), [seen] + [Withdrawn(o.tag)]);
        assert View() == Bind(Shelves(), Account());
      } else {
        assert [seen] + [] == [seen];
      }
    }

    /** The quantity update inside a level. */
    method ResizeInPlace(prior: Order, o: Order, now: nat) returns (reply: Reply<Option<Order>>)
      requires Valid() && Proper(o) && o.tag == prior.tag && GetOrder(Heart(), o.tag.id) == Some(prior)
      modifies this, cache
      ensures Fresh()
      ensures var x := Resize(old(Heart()), prior, o, now);
              View() == Commit(old(View()), x.core, x.effects) && reply == x.reply
    {
      hide Sound, Post, Commit, Settle, PutQueue, Filter, Validate, Resized, GetOrder, Tracks, QueueAt, Total;
      CommitNone(View());
      ResidentTag(View(), o.tag.id);
      var invalid := ValidateOrderShape(o, now);
      if invalid.Some? {
        return Err(invalid.value);
      }
      var queue := QueueAt(SideLevels(o.tag.side), o.tag.price);
      if cfg.dropZero && Total(o) == 0 {
        DropInPlace(o);
        cache.Invalidate();
        return Ok(Some(o));
      }
      if SatSub(Sum(Total, queue), Total(prior)) + Total(o) > U64_MAX {
        return Err(LevelCapacity(o.tag.id));
      }
      ReplaceQueue(o.tag.side, o.tag.price, Resized(queue, o, Total(o) > Total(prior)));
      cache.Invalidate();
      reply := Ok(Some(o));
    }

    /** Replace a resting order: check everything first, then cancel and add. */
    method ModifyInPlace(o: Order, now: nat) returns (reply: Reply<Option<Order>>)
      requires Valid() && Proper(o)
      modifies this, cache
      ensures Valid()
      ensures var x := Modify(old(Heart()), o, now);
              View() == Commit(old(View()), x.core, x.effects) && reply == x.reply
    {
      hide Sound, Commit, Cancel, Add, Validate, Reaches;
      ghost var b := View();
      CommitNone(b);
      var invalid := ValidateOrderShape(o, now);
      if invalid.Some? {
        return Err(invalid.value);
      }
      var blocked := CheckModifyStpSelfCross(o);
      if blocked {
        return Err(SelfTradePrevented(o.tag.id));
      }
      ghost var cut := Cancel(b.core, o.tag.id);
      ghost var add := Add(cut.core, o, now);
      var _ := CancelOrderWithReason(o.tag.id);
      assert Heart() == cut.core by { CommitCore(b, cut.core, cut.effects); }
      var added := AddOrderInner(o, now);
      CommitThen(b, cut.core, cut.effects, add.core, add.effects);
      match added {
        case Ok(rested) => reply := Ok(Some(rested));
        case Err(e) => reply := Err(e);
      }
    }

    method UpdateOrder(u: Update, now: nat) returns (reply: Reply<Option<Order>>)
      requires Valid() && Sized(u)
      modifies this, cache
      ensures Fresh()
      ensures var x := Engine.UpdateOrder(old(Heart()), u, now);
              View() == Commit(old(View()), x.core, x.effects) && reply == x.reply
      ensures old(!UpdateOrphans(Heart(), u)) ==> Valid()
    {
      hide Sound, Commit, Modify, Resize, Remove, GetOrder, Revised, Proper;
      ghost var b := View();
      CommitNone(b);
      if UpdateOrphans(b.core, u) {
      } else {
        UpdateSound(b, u, now);
      }
      if killSwitch && !u.Withdraw? {
        return Err(KillSwitchActive);
      }
      cache.Invalidate();
      if u.Withdraw? {
        var withdrawn := WithdrawInPlace(u.id);
        return Ok(withdrawn);
      }
      if u.UpdatePrice? && u.id in orderLocations && orderLocations[u.id].price == u.price {
        return Err(InvalidOperation);
      }
      var found := FetchOrder(u.id);
      if found.None? {
        return Ok(None);
      }
      RevisedProper(b, u);
      if u.UpdateQuantity? {
        reply := ResizeInPlace(found.value, Revised(found.value, u), now);
      } else {
        reply := ModifyInPlace(Revised(found.value, u), now);
      }
    }

    /** The resting order with this id. */
    method FetchOrder(id: Id) returns (found: Option<Order>)
      ensures found == GetOrder(Heart(), id)
    {
      if id !in orderLocations {
        return None;
      }
      var level := LevelAt(SideLevels(orderLocations[id].side), orderLocations[id].price);
      if level.None? {
        return None;
      }
      found := FindOrder(level.value.orders, id);
    }

    // ---- Public commands ----

    method AddOrder(o: Order, now: nat) returns (reply: Reply<Order>)
      requires Valid() && Proper(o)
      modifies this, cache
      ensures Valid()
      ensures View() == Step(old(View()), Submit(o, now))
      ensures reply == Add(old(Heart()), o, now).reply
    {
      hide Add, Commit, Sound;
      reply := AddOrderInner(o, now);
    }

    /** A market, limit or notional match that never rests. */
    method MatchOrder(tk: Taker, start: StopCondition) returns (reply: Reply<MatchResult>)
      requires Valid()
      modifies this, cache
      ensures Valid()
      ensures View() == old(Step(View(), Execute(tk, start)))
      ensures reply == old(Take(Heart(), tk, start).reply)
    {
      hide Sound, Match, Commit, Post;
      ghost var b := View();
      ghost var m := Match(b.core, tk, start);
      TakeSound(b, tk, start);
      var outcome := MatchOrderInner(tk, start);
      match outcome {
        case Err(e) =>
          reply := Err(e);
        case Ok(r) =>
          ghost var trades := r.result.trades;
          if r.result.trades != [] {
            NotifyTrade(tk.id, r.result.trades);
          }
          ghost var now := Commit(b, m.core, m.effects);
          assert now.core == m.core by { CommitCore(b, m.core, m.effects); }
          PostNone(LedgerOf(now));
          Reported(now, tk.id, trades);
          assert View() == Bind(Shelves(), Account());
          CommitThen(b, m.core, m.effects, m.core, Report(tk.id, trades));
          reply := Ok(r.result);
      }
    }

    /** A market order, by quantity or by amount, behind the kill switch. */
    method SubmitMarketOrder(id: Id, user: User, side: Side, start: StopCondition) returns (reply: Reply<MatchResult>)
      requires Valid()
      modifies this, cache
      ensures Valid()
      ensures View() == Step(old(View()), Market(id, user, side, start))
      ensures reply == TakeMarket(old(Heart()), MarketTaker(id, user, side), start).reply
    {
      hide Sound, Take, Commit;
      CommitNone(View());
      if killSwitch {
        return Err(KillSwitchActive);
      }
      reply := MatchOrder(MarketTaker(id, user, side), start);
    }

    method CancelOrder(id: Id) returns (cancelled: Option<Order>)
      requires Valid()
      modifies this, cache
      ensures Valid()
      ensures View() == old(Step(View(), CancelOne(id)))
      ensures cancelled == old(GetOrder(Heart(), id))
    {
      cancelled := CancelOrderWithReason(id);
    }

    method SetKillSwitch(on: bool)
      requires Valid()
      modifies this`killSwitch
      ensures Valid() && View() == old(Step(View(), Command.SetKillSwitch(on)))
    {
      hide Sound;
      SettingSound(View(), Heart().(killed := on));
      killSwitch := on;
    }

    method SetMarketClose(close: Option<nat>)
      requires Valid()
      modifies this`marketClose
      ensures Valid() && View() == old(Step(View(), SetClose(close)))
    {
      hide Sound;
      SettingSound(View(), Heart().(close := close));
      marketClose := close;
    }

    // ---- Mass cancellation ----

    /** Cancel ids one by one, skipping those that do not rest. */
    method CancelOrderBatch(ids: seq<Id>) returns (cancelled: seq<Order>)
      modifies this, cache
      ensures old(Fresh()) ==> Fresh()
      ensures old(Sound(View())) ==> Sound(View())
      ensures var x := CancelEach(old(Heart()), ids);
              View() == Commit(old(View()), x.core, x.effects) && cancelled == x.cancelled
    {
      hide Sound, Commit, Cancel, CancelEach;
      ghost var b, c := View(), Heart();
      ghost var es: seq<Effect> := [];
      cancelled := [];
      CommitNone(b);
      assert ids[0..] == ids;
      for i := 0 to |ids|
        invariant View() == Commit(b, Heart(), es)
        invariant CancelEach(c, ids).core == CancelEach(Heart(), ids[i..]).core
        invariant CancelEach(c, ids).effects == es + CancelEach(Heart(), ids[i..]).effects
        invariant CancelEach(c, ids).cancelled == cancelled + CancelEach(Heart(), ids[i..]).cancelled
        invariant old(Sound(View())) ==> Sound(View())
        invariant i > 0 ==> cache.Void()
        invariant i == 0 ==> Heart() == c && unchanged(cache)
      {
        ghost var now, first := Heart(), Cancel(Heart(), ids[i]);
        CancelEachUnfolds(now, ids, i);
        var got := CancelOrderWithReason(ids[i]);
        CommitThen(b, now, es, first.core, first.effects);
        assert Heart() == first.core by { CommitCore(b, first.core, es + first.effects); }
        if got.Some? {
          cancelled := cancelled + [got.value];
        }
        es := es + first.effects;
      }
      assert ids[|ids|..] == [];
      NoneCancelled(Heart());
      assert Ids([]) == [];
      assert es + [] == es && cancelled + [] == cancelled;
    }

    /** Collect the ids of the orders of a side that satisfy `p`, by ascending price and in
        queue order inside a level. */
    method CollectOrderIds(side: Side, p: Order -> bool) returns (ids: seq<Id>)
      ensures ids == Ids(Filter(p, Ascending(side, SideLevels(side))))
    {
      hide Filter, Ascending, Ids;
      var upward := if side.Buy? then Reversed(SideLevels(side)) else SideLevels(side);
      UpwardOrders(side, SideLevels(side));
      ids := [];
      NothingCollected(p);
      for i := 0 to |upward|
        invariant ids == Ids(Filter(p, Ascending(Sell, upward[..i])))
      {
        var orders := upward[i].orders;
        ghost var before := ids;
        assert upward[..i + 1] == upward[..i] + [upward[i]];
        UpwardMore(upward[..i], upward[i]);
        FilterAppend(p, Ascending(Sell, upward[..i]), orders);
        IdsSum(Filter(p, Ascending(Sell, upward[..i])), Filter(p, orders));
        assert orders[..0] == [];
        for j := 0 to |orders|
          invariant ids == before + Ids(Filter(p, orders[..j]))
        {
          assert orders[..j + 1] == orders[..j] + [orders[j]];
          FilterAppend(p, orders[..j], [orders[j]]);
          IdsSum(Filter(p, orders[..j]), Filter(p, [orders[j]]));
          CollectOne(p, orders[j]);
          if p(orders[j]) {
            ids := ids + [orders[j].tag.id];
          }
        }
        assert orders[..|orders|] == orders;
      }
      assert upward[..|upward|] == upward;
    }

    method CancelOrdersBySide(side: Side) returns (cancelled: seq<Order>)
      requires Valid()
      modifies this, cache
      ensures Valid()
      ensures View() == old(Step(View(), CancelSide(side)))
      ensures cancelled == old(Ascending(side, SideLevels(side)))
    {
      hide Sound, Commit, CancelEach, Ascending, Filter, Ids;
      ghost var b := View();
      FilterAll(Any(), Ascending(side, SideLevels(side)));
      var ids := CollectOrderIds(side, Any());
      cancelled := CancelOrderBatch(ids);
      BySideExact(b, side);
    }

    method CancelOrdersByPriceRange(side: Side, low: Price, high: Price) returns (cancelled: seq<Order>)
      requires Valid()
      modifies this, cache
      ensures Valid()
      ensures View() == old(Step(View(), CancelRange(side, low, high)))
      ensures cancelled == old(Filter(InRange(low, high), Ascending(side, SideLevels(side))))
    {
      hide Sound, Commit, CancelEach, Ascending, Filter, Ids;
      ghost var b := View();
      ByRangeExact(b, side, low, high);
      if low > high {
        CommitNone(b);
        return [];
      }
      var ids := CollectOrderIds(side, InRange(low, high));
      cancelled := CancelOrderBatch(ids);
    }

    method EvictExpiredOrders(now: nat) returns (evicted: seq<Order>)
      requires Valid()
      modifies this, cache
      ensures Valid()
      ensures View() == old(Step(View(), Evict(now)))
      ensures evicted == old(Filter(ExpiredAt(now, marketClose), AllAscending(Heart())))
    {
      hide Sound, Commit, CancelEach, Ascending, Filter, Ids;
      ghost var b := View();
      var p := ExpiredAt(now, marketClose);
      var below := CollectOrderIds(Buy, p);
      var above := CollectOrderIds(Sell, p);
      FilterAppend(p, Ascending(Buy, bids), Ascending(Sell, asks));
      IdsSum(Filter(p, Ascending(Buy, bids)), Filter(p, Ascending(Sell, asks)));
      evicted := CancelOrderBatch(below + above);
      EvictedExact(b, now);
    }

    /** The user's list is taken out of the index first, then its ids are cancelled. */
    method CancelOrdersByUser(user: User) returns (cancelled: seq<Order>)
      requires Valid()
      modifies this, cache
      ensures Valid()
      ensures View() == old(Step(View(), CancelUser(user)))
      ensures cancelled == CancelEach(old(Heart()), old(ListOf(userOrders, user))).cancelled
    {
      hide Sound, Commit, CancelEach;
      ghost var b := View();
      StepSound(b, CancelUser(user));
      var ids := ListOf(userOrders, user);
      userOrders := userOrders - {user};
      assert View() == b.(users := b.users - {user});
      cancelled := CancelOrderBatch(ids);
    }

    /** Announce quantity zero for every level of a side, by ascending price. */
    method AnnounceCleared(side: Side)
      modifies this`events, this`engineSeq
      ensures Account() == Post(old(Account()), Zeroed(side, SideLevels(side)))
    {
      hide Post, Zeroed, Reversed;
      ghost var account := Account();
      var upward := if side.Buy? then Reversed(SideLevels(side)) else SideLevels(side);
      UpwardZeroes(side, SideLevels(side));
      PostNone(account);
      assert Zeroes(side, upward[..0]) == [];
      for i := 0 to |upward|
        invariant Account() == Post(account, Zeroes(side, upward[..i]))
      {
        NotifyLevel(side, upward[i].price, 0);
        PostThen(account, Zeroes(side, upward[..i]), [LevelChanged(side, upward[i].price, 0)]);
        assert Zeroes(side, upward[..i + 1]) == Zeroes(side, upward[..i]) + [LevelChanged(side, upward[i].price, 0)];
      }
      assert upward[..|upward|] == upward;
    }

    method CollectAllIds() returns (ids: seq<Id>)
      ensures ids == Ids(AllAscending(Heart()))
    {
      hide Ids, Filter, Ascending;
      FilterAll(Any(), Ascending(Buy, bids));
      FilterAll(Any(), Ascending(Sell, asks));
      IdsSum(Ascending(Buy, bids), Ascending(Sell, asks));
      var below := CollectOrderIds(Buy, Any());
      var above := CollectOrderIds(Sell, Any());
      ids := below + above;
    }

    /** Clear the whole book at once. */
    method CancelAllOrders() returns (ids: seq<Id>)
      requires Valid()
      modifies this, cache
      ensures Valid()
      ensures View() == Step(old(View()), CancelEverything)
      ensures ids == Ids(AllAscending(old(Heart())))
    {
      hide Sound, Post, Commit, Zeroed, Ids, AllAscending, CancelAll, Step;
      ghost var b, account := View(), Account();
      cache.Invalidate();
      ids := CollectAllIds();
      IdsLength(AllAscending(b.core));
      ClearedBook(b);
      if |ids| == 0 {
        return;
      }
      AnnounceCleared(Buy);
      AnnounceCleared(Sell);
      PostThen(account, Zeroed(Buy, b.core.bids), Zeroed(Sell, b.core.asks));
      orderLocations, userOrders, registry := map[], map[], map[];
      bids, asks := [], [];
      cache.Invalidate();
      assert View() == Book(b.core.(bids := [], asks := [], locations := map[]), map[], map[],
                            Post(account, Zeroed(Buy, b.core.bids) + Zeroed(Sell, b.core.asks)).feed);
    }

    // ---- Runs ----

    /** Apply one command and return its error, if any. */
    method Apply(cmd: Command) returns (failure: Option<Error>)
      requires Valid() && Wellformed(cfg, cmd)
      modifies this, cache
      ensures Valid() && cfg == old(cfg)
      ensures View() == Step(old(View()), cmd)
      ensures failure == Failure(old(Heart()), cmd)
    {
      hide Sound, Add, Cancel, Engine.UpdateOrder, Take, TakeMarket, CancelAll, CancelBySide, CancelByRange, EvictExpired,
        CancelEach, Commit;
      ghost var b := View();
      StepSound(b, cmd);
      failure := None;
      match cmd {
        case Submit(o, now) =>
          var reply := AddOrder(o, now);
          failure := if reply.Err? then Some(reply.error) else None;
        case CancelOne(id) => var _ := CancelOrder(id);
        case Change(u, now) =>
          var reply := UpdateOrder(u, now);
          failure := if reply.Err? then Some(reply.error) else None;
        case Execute(tk, start) =>
          var reply := MatchOrder(tk, start);
          failure := if reply.Err? then Some(reply.error) else None;
        case Market(id, user, side, start) =>
          var reply := SubmitMarketOrder(id, user, side, start);
          failure := if reply.Err? then Some(reply.error) else None;
        case CancelEverything => var _ := CancelAllOrders();
        case CancelSide(side) => var _ := CancelOrdersBySide(side);
        case CancelUser(user) => var _ := CancelOrdersByUser(user);
        case CancelRange(side, low, high) => var _ := CancelOrdersByPriceRange(side, low, high);
        case Evict(now) => var _ := EvictExpiredOrders(now);
        case SetKillSwitch(on) => SetKillSwitch(on);
        case SetClose(close) => SetMarketClose(close);
      }
    }

    /** Replay a journal: check the numbers, skip rejected records, apply the others at the time
        the clock shows and stop at the first that fails. */
    method Replay(clock: Clock, records: seq<Record>, first: nat) returns (last: nat, error: Option<ReplayError>)
      requires Valid() && first <= U64_MAX && forall r <- records :: Wellformed(cfg, CommandOf(clock, r))
      modifies this, cache
      ensures Valid()
      ensures Replayed(View(), last, error) == Replays.Replay(clock, old(View()), 0, first, records)
      ensures error.None? ==> View() == Run(old(View()), Accepted(clock, records))
    {
      hide Sound, Step, Wellformed, Failure, Run, CommandOf;
      ghost var b, config := View(), cfg;
      last, error := 0, None;
      var expected: nat := first;
      for i := 0 to |records|
        invariant Valid() && cfg == config && expected <= U64_MAX
        invariant Replays.Replay(clock, b, 0, first, records) == Replays.Replay(clock, View(), last, expected, records[i..])
      {
        var r := records[i];
        assert r in records && records[i..][0] == r && records[i..][1..] == records[i + 1..];
        if r.number != expected {
          error := Some(SequenceGap(expected, r.number));
          return;
        }
        if !r.rejected {
          var failure := Apply(CommandOf(clock, r));
          if failure.Some? {
            error := Some(BookFailed(r.number, failure.value));
            return;
          }
        }
        if expected == U64_MAX {
          error := Some(SequenceOverflow(expected));
          return;
        }
        expected := expected + 1;
        if !r.rejected {
          last := r.number;
        }
      }
      assert records[|records|..] == [];
      ReplaySucceeds(clock, b, 0, first, records);
    }

    // ---- Snapshots ----

    method CreateSnapshotPackage(codec: Codec, symbol: Symbol, depth: nat) returns (k: Package)
      ensures k == CapturePackage(codec, View(), symbol, depth)
    {
      var below := TopLevels(bids, depth);
      var above := TopLevels(asks, depth);
      var s := Snapshot(symbol, below, above);
      k := Package(FORMAT_VERSION, s, codec.digest(s), cfg.stp, cfg.tick, cfg.lot, cfg.minSize, cfg.maxSize,
                   engineSeq, killSwitch, marketClose);
    }

    /** Index the orders of prepared levels, by ascending price and in queue order. */
    method RebuildSide(side: Side, levels: seq<Level>)
      modifies this`orderLocations, this`userOrders, this`registry
      ensures Account() == Post(old(Account()), RestedAll(AllStamps(side, levels)))
    {
      hide Post, AllStamps, RestedAll;
      ghost var account := Account();
      NothingStamped(account, side, levels);
      for i := 0 to |levels|
        invariant Account() == Post(account, RestedAll(AllStamps(side, levels[..i])))
      {
        var price, orders := levels[i].price, levels[i].orders;
        ghost var before := Account();
        PostNone(before);
        for j := 0 to |orders|
          invariant Account() == Post(before, RestedAll(Stamps(side, levels[i])[..j]))
        {
          var tag := Tag(orders[j].tag.id, orders[j].tag.user, side, price);
          TrackResting(tag);
          StampMore(before, side, levels[i], j);
        }
        StampedLevel(account, side, levels, i);
      }
      assert levels[..|levels|] == levels;
    }

    /** The infallible phase: clear the book, install the levels and rebuild the indexes. */
    method CommitRestoredLevels(p: Prepared)
      modifies this, cache
      ensures cache.Void() && View() == Install(old(View()), p)
    {
      hide Post, AllStamps, RestedAll, Register, Locate, Track, Emit;
      ghost var feed := Feed(events, engineSeq);
      cache.Invalidate();
      bids, asks, orderLocations, userOrders, registry, marketClose := [], [], map[], map[], map[], None;
      ghost var blank := Account();
      for i := 0 to |p.bids|
        invariant bids == Reversed(p.bids[..i])
        invariant Heart() == old(Heart()).(bids := bids, asks := [], locations := map[], close := None) && Account() == blank && cache.Void()
      {
        assert p.bids[..i + 1] == p.bids[..i] + [p.bids[i]];
        ReversedAppend(p.bids[..i], p.bids[i]);
        bids := [p.bids[i]] + bids;
      }
      assert p.bids[..|p.bids|] == p.bids;
      for i := 0 to |p.asks|
        invariant asks == p.asks[..i]
        invariant Heart() == old(Heart()).(bids := Reversed(p.bids), asks := asks, locations := map[], close := None) && Account() == blank && cache.Void()
      {
        asks := asks + [p.asks[i]];
      }
      assert p.asks[..|p.asks|] == p.asks;
      RebuildSide(Buy, p.bids);
      RebuildSide(Sell, p.asks);
      RebuiltBoth(blank, p);
      PostRebuild(blank, p, feed);
    }

    /** Restore a package: nothing changes unless every check passes. */
    method RestoreFromSnapshotPackage(codec: Codec, symbol: Symbol, k: Package) returns (error: Option<RestoreError>)
      requires Fresh()
      modifies this, cache
      ensures Fresh()
      ensures match RestorePackage(codec, old(View()), symbol, k)
              case Failed(e) => error == Some(e) && View() == old(View()) && unchanged(cache)
              case Completed(b) => error == None && View() == b
      ensures error.None? && SoundLevels(k.snapshot) ==> Valid()
    {
      hide Prepare, Install, Sound;
      ghost var before := View();
      if !(MIN_READ_VERSION <= k.version <= FORMAT_VERSION) {
        return Some(UnsupportedVersion(k.version));
      }
      if codec.digest(k.snapshot) != k.checksum {
        return Some(ChecksumMismatch);
      }
      if k.snapshot.symbol != symbol {
        return Some(SymbolMismatch);
      }
      var prepared := PrepareSnapshotLevels(codec.accepts, k.snapshot);
      if prepared.Failed? {
        return Some(prepared.error);
      }
      CommitRestoredLevels(prepared.value);
      cfg := cfg.(stp := k.stp, tick := k.tick, lot := k.lot, minSize := k.minSize, maxSize := k.maxSize);
      engineSeq := k.next;
      killSwitch := k.killed;
      marketClose := k.close;
      error := None;
      if SoundLevels(k.snapshot) {
        PackageSound(codec, before, symbol, k);
      }
    }
  }
}
