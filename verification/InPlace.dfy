/** What the in-place methods of the book rely on: each lemma relates one piece of a loop
    or of a method to the function that specifies it. */
module InPlace {
  import opened Types
  import opened Seqs
  import opened Orders
  import opened Levels
  import opened Effects
  import opened Matching
  import opened SweepLaws
  import opened Engine
  import opened SideLaws
  import opened CoreLaws
  import opened Runs
  import opened Ledgers
  import opened SnapshotLaws
  import opened BudgetLaws
  import opened OpLaws
  import opened MassCancelLaws
  import opened Snapshots

  /** No level of the side has a better price; nothing only for an empty side. */
  predicate IsBest(side: Side, levels: seq<Level>, best: Option<Price>) {
    match best
    case None => levels == []
    case Some(p) => (exists l :: l in levels && l.price == p) && forall l <- levels :: !Better(side, l.price, p)
  }

  lemma BestOfBook(b: Book, side: Side)
    ensures Sound(b) ==> IsBest(side, SideOf(b.core, side), BestPrice(SideOf(b.core, side)))
  {
    if Sound(b) {
      var levels := SideOf(b.core, side);
      assert SideOk(side, levels);
      if levels != [] {
        assert levels[0] in levels;
        forall l | l in levels ensures !Better(side, l.price, levels[0].price) {
          var i :| 0 <= i < |levels| && levels[i] == l;
        }
      }
    }
  }

  method TopLevels(levels: seq<Level>, depth: nat) returns (top: seq<Level>)
    ensures top == levels[..Min(depth, |levels|)]
  {
    top := [];
    for i := 0 to Min(depth, |levels|)
      invariant top == levels[..i]
    {
      top := top + [levels[i]];
    }
  }

  // ---- The bulk clear ----

  function Zeroes(side: Side, levels: seq<Level>): seq<Effect> {
    seq(|levels|, i requires 0 <= i < |levels| => LevelChanged(side, levels[i].price, 0))
  }

  lemma {:induction false} UpwardZeroes(side: Side, levels: seq<Level>)
    ensures Zeroed(side, levels) == Zeroes(side, if side.Buy? then Reversed(levels) else levels)
  {
    if levels != [] {
      UpwardZeroes(side, levels[1..]);
    }
  }

  lemma {:induction false} QuietCancels(feed: Feed, orders: seq<Order>)
    ensures Emit(feed, CancelledEffects(orders)) == feed
    decreases |orders|
  {
    if orders != [] {
      assert CancelledEffects(orders) == [Cancelled(orders[0].tag)] + CancelledEffects(orders[1..]);
      FoldCons(EmitStep, feed, Cancelled(orders[0].tag), CancelledEffects(orders[1..]));
      QuietCancels(feed, orders[1..]);
    }
  }

  /** What clearing everything leaves: empty indexes and the zero announcements. */
  lemma ClearedBook(b: Book)
    requires Sound(b)
    ensures var out := Step(b, CancelEverything);
            var zeroes := Zeroed(Buy, b.core.bids) + Zeroed(Sell, b.core.asks);
            && Sound(out)
            && out == if AllAscending(b.core) == [] then b
                      else Book(b.core.(bids := [], asks := [], locations := map[]), map[], map[], Post(LedgerOf(b), zeroes).feed)
  {
    hide Tracks, Zeroed, CancelledEffects, Ascending;
    var x := CancelAll(b.core);
    CancelAllMoves(b.core, b.registry);
    CommitSound(b, x.core, x.effects);
    CommitNone(b);
    if AllAscending(b.core) != [] {
      var zeroes, rest := Zeroed(Buy, b.core.bids) + Zeroed(Sell, b.core.asks), CancelledEffects(AllAscending(b.core));
      FoldAppend(EmitStep, b.feed, zeroes, rest);
      QuietCancels(Emit(b.feed, zeroes), AllAscending(b.core));
      NoUsersLeft(Track(b.users, x.effects));
    }
  }

  // ---- The index rebuild ----

  lemma NothingStamped(account: Ledger, side: Side, levels: seq<Level>)
    ensures Post(account, RestedAll(AllStamps(side, levels[..0]))) == account
    ensures forall l :: RestedAll(Stamps(side, l)[..0]) == []
  {
  }

  lemma StampMore(before: Ledger, side: Side, l: Level, j: nat)
    requires j < |l.orders|
    ensures var tag := Tag(l.orders[j].tag.id, l.orders[j].tag.user, side, l.price);
            Post(Post(before, RestedAll(Stamps(side, l)[..j])), [Rested(tag)]) == Post(before, RestedAll(Stamps(side, l)[..j + 1]))
  {
    hide Post;
    var tag := Tag(l.orders[j].tag.id, l.orders[j].tag.user, side, l.price);
    PostThen(before, RestedAll(Stamps(side, l)[..j]), [Rested(tag)]);
    assert RestedAll(Stamps(side, l)[..j + 1]) == RestedAll(Stamps(side, l)[..j]) + [Rested(tag)];
  }

  lemma {:induction false} StampsAppend(side: Side, levels: seq<Level>, l: Level)
    ensures AllStamps(side, levels + [l]) == AllStamps(side, levels) + Stamps(side, l)
  {
    if levels == [] {
      assert levels + [l] == [l] && [l][1..] == [];
    } else {
      assert (levels + [l])[0] == levels[0] && (levels + [l])[1..] == levels[1..] + [l];
      StampsAppend(side, levels[1..], l);
    }
  }

  lemma StampedLevel(account: Ledger, side: Side, levels: seq<Level>, i: nat)
    requires i < |levels|
    ensures var stamps := Stamps(side, levels[i]);
            && |stamps| == |levels[i].orders|
            && Post(Post(account, RestedAll(AllStamps(side, levels[..i]))), RestedAll(stamps[..|levels[i].orders|]))
               == Post(account, RestedAll(AllStamps(side, levels[..i + 1])))
  {
    hide Post, AllStamps;
    var stamps, done := Stamps(side, levels[i]), AllStamps(side, levels[..i]);
    assert levels[..i + 1] == levels[..i] + [levels[i]];
    StampsAppend(side, levels[..i], levels[i]);
    assert stamps[..|levels[i].orders|] == stamps;
    PostThen(account, RestedAll(done), RestedAll(stamps));
    assert RestedAll(done + stamps) == RestedAll(done) + RestedAll(stamps);
  }

  lemma RebuiltBoth(blank: Ledger, p: Prepared)
    ensures Post(Post(blank, RestedAll(AllStamps(Buy, p.bids))), RestedAll(AllStamps(Sell, p.asks))) == Post(blank, Rebuild(p))
  {
    hide Post, AllStamps;
    var a, b := AllStamps(Buy, p.bids), AllStamps(Sell, p.asks);
    PostThen(blank, RestedAll(a), RestedAll(b));
    assert RestedAll(a + b) == RestedAll(a) + RestedAll(b);
  }

  lemma {:induction false} RestedQuiet(feed: Feed, tags: seq<Tag>)
    ensures Emit(feed, RestedAll(tags)) == feed
    decreases |tags|
  {
    if tags != [] {
      assert RestedAll(tags) == [Rested(tags[0])] + RestedAll(tags[1..]);
      FoldCons(EmitStep, feed, Rested(tags[0]), RestedAll(tags[1..]));
      RestedQuiet(feed, tags[1..]);
    }
  }

  lemma PostRebuild(blank: Ledger, p: Prepared, feed: Feed)
    requires blank == Ledger(map[], map[], map[], feed)
    ensures Post(blank, Rebuild(p)) == Ledger(Locate(map[], Rebuild(p)), Register(map[], Rebuild(p)), Track(map[], Rebuild(p)), feed)
  {
    hide AllStamps;
    RestedQuiet(feed, AllStamps(Buy, p.bids) + AllStamps(Sell, p.asks));
  }

  lemma TakeSound(b: Book, tk: Taker, start: StopCondition)
    requires Sound(b)
    ensures var x := Take(b.core, tk, start); Sound(Commit(b, x.core, x.effects))
  {
    hide Take, Tracks;
    TakeMoves(b.core, b.registry, tk, start);
    CommitSound(b, Take(b.core, tk, start).core, Take(b.core, tk, start).effects);
  }

  lemma CancelEachUnfolds(c: Core, ids: seq<Id>, i: nat)
    requires i < |ids|
    ensures var first := Cancel(c, ids[i]);
            var rest := CancelEach(first.core, ids[i + 1..]);
            CancelEach(c, ids[i..]) == Batch(rest.core, first.effects + rest.effects, (if first.reply.Some? then [first.reply.value] else []) + rest.cancelled)
  {
    hide Cancel;
    assert ids[i..][1..] == ids[i + 1..];
  }

  // ---- Ascending traversal ----

  lemma {:induction false} UpwardMore(levels: seq<Level>, l: Level)
    ensures Ascending(Sell, levels + [l]) == Ascending(Sell, levels) + l.orders
  {
    if levels == [] {
      assert levels + [l] == [l] && [l][1..] == [];
    } else {
      assert (levels + [l])[0] == levels[0] && (levels + [l])[1..] == levels[1..] + [l];
      UpwardMore(levels[1..], l);
    }
  }

  lemma {:induction false} UpwardOrders(side: Side, levels: seq<Level>)
    ensures Ascending(side, levels) == Ascending(Sell, if side.Buy? then Reversed(levels) else levels)
  {
    if side.Buy? && levels != [] {
      UpwardOrders(side, levels[1..]);
      UpwardMore(Reversed(levels[1..]), levels[0]);
    }
  }

  lemma NothingCollected(p: Order -> bool)
    ensures Ids(Filter(p, Ascending(Sell, []))) == [] && Ids(Filter(p, [])) == []
  {
  }

  lemma CollectOne(p: Order -> bool, o: Order)
    ensures Ids(Filter(p, [o])) == if p(o) then [o.tag.id] else []
  {
  }

  lemma BySideExact(b: Book, side: Side)
    requires Sound(b)
    ensures CancelBySide(b.core, side).cancelled == Ascending(side, SideOf(b.core, side))
  {
    hide Tracks, CancelBySide;
    CancelBySideExact(b.core, b.registry, side);
  }

  lemma ByRangeExact(b: Book, side: Side, low: Price, high: Price)
    requires Sound(b)
    ensures CancelByRange(b.core, side, low, high).cancelled == Filter(InRange(low, high), Ascending(side, SideOf(b.core, side)))
  {
    hide Tracks, CancelByRange;
    CancelByRangeExact(b.core, b.registry, side, low, high);
  }

  lemma EvictedExact(b: Book, now: nat)
    requires Sound(b)
    ensures EvictExpired(b.core, now).cancelled == Filter(ExpiredAt(now, b.core.close), AllAscending(b.core))
  {
    hide Tracks, EvictExpired;
    EvictExact(b.core, b.registry, now);
  }

  /** A resting order is registered under its own tag, and the user lists agree with the
      registry. */
  lemma ResidentTag(b: Book, id: Id)
    requires Sound(b)
    ensures Tracks(b.users, b.registry)
    ensures GetOrder(b.core, id).Some? ==> id in b.registry && b.registry[id] == GetOrder(b.core, id).value.tag && b.registry[id].id == id
  {
    if GetOrder(b.core, id).Some? {
      FoundFits(b.core, b.registry, id);
    }
  }

  lemma WithdrawSound(b: Book, id: Id)
    requires Sound(b)
    ensures var x := Remove(b.core, id, ByUpdate); Sound(Commit(b, x.core, x.effects))
    ensures Tracks(b.users, b.registry)
    ensures GetOrder(b.core, id).Some? ==> id in b.registry && b.registry[id] == GetOrder(b.core, id).value.tag && b.registry[id].id == id
  {
    hide Remove, GetOrder;
    ResidentTag(b, id);
    RemoveMoves(b.core, b.registry, id, ByUpdate);
    CommitSound(b, Remove(b.core, id, ByUpdate).core, Remove(b.core, id, ByUpdate).effects);
  }

  lemma UpdateSound(b: Book, u: Update, now: nat)
    requires Sound(b) && Sized(u) && !UpdateOrphans(b.core, u)
    ensures var x := Engine.UpdateOrder(b.core, u, now); Sound(Commit(b, x.core, x.effects))
  {
    hide Engine.UpdateOrder, Tracks;
    UpdateMoves(b.core, b.registry, u, now);
    CommitSound(b, Engine.UpdateOrder(b.core, u, now).core, Engine.UpdateOrder(b.core, u, now).effects);
  }

  lemma RevisedProper(b: Book, u: Update)
    requires Sound(b) && Sized(u) && GetOrder(b.core, u.id).Some?
    ensures var o := GetOrder(b.core, u.id).value;
            Proper(Revised(o, u)) && o.tag.id == u.id && (u.UpdateQuantity? ==> Revised(o, u).tag == o.tag)
  {
    hide GetOrder;
    FoundFits(b.core, b.registry, u.id);
  }

  lemma AddSound(b: Book, o: Order, now: nat)
    requires Sound(b) && Proper(o)
    ensures var x := Add(b.core, o, now); Sound(Commit(b, x.core, x.effects))
  {
    hide Add, Tracks;
    AddMoves(b.core, b.registry, o, now);
    CommitSound(b, Add(b.core, o, now).core, Add(b.core, o, now).effects);
  }

  lemma TotalFits(o: Order)
    requires Proper(o)
    ensures TotalQuantity(o) <= U64_MAX
  {
  }

  lemma CancelSound(b: Book, id: Id)
    requires Sound(b)
    ensures var x := Cancel(b.core, id); Sound(Commit(b, x.core, x.effects))
  {
    hide Cancel, Tracks;
    CancelMoves(b.core, b.registry, id);
    CommitSound(b, Cancel(b.core, id).core, Cancel(b.core, id).effects);
  }

  lemma FokAtEnd(cfg: Config, tk: Taker, levels: seq<Level>, needed: nat)
    ensures levels == [] || needed == 0 ==> FokWalk(cfg, tk, levels, needed) == 0
  {
  }

  lemma FilledNone(account: Ledger, filled: seq<Order>)
    ensures Post(account, FilledEffects(filled[..0])) == account && filled[0..] == filled
  {
  }

  lemma FilledStep(users: map<User, seq<Id>>, r: map<Id, Tag>, account: Ledger, filled: seq<Order>, i: nat)
    requires i < |filled|
    requires Tracks(users, r) && Keyed(r) && Legal(r, FilledEffects(filled[i..]))
    ensures var t := filled[i].tag;
            && t.id in r && r[t.id] == t
            && Tracks(Untrack(users, t.user, t.id), r - {t.id}) && Keyed(r - {t.id})
            && Legal(r - {t.id}, FilledEffects(filled[i + 1..]))
            && Post(Post(account, FilledEffects(filled[..i])), [Filled(t)]) == Post(account, FilledEffects(filled[..i + 1]))
  {
    hide Post, Tracks;
    var t := filled[i].tag;
    var es := FilledEffects(filled[i..]);
    assert es[0] == Filled(t) && es[1..] == FilledEffects(filled[i + 1..]);
    TracksStep(users, r, Filled(t));
    PostThen(account, FilledEffects(filled[..i]), [Filled(t)]);
    assert FilledEffects(filled[..i + 1]) == FilledEffects(filled[..i]) + [Filled(t)];
  }

  /** What the sweep needs of a side. */
  lemma SideReady(b: Book, side: Side)
    requires Sound(b)
    ensures BestFirst(side, SideOf(b.core, side))
    ensures forall l <- SideOf(b.core, side) :: l.orders != [] && NoDup(Ids(l.orders))
  {
    hide Ids, NoDup, Tracks, Agrees, Locates;
    forall l | l in SideOf(b.core, side) ensures l.orders != [] && NoDup(Ids(l.orders)) {
      LevelIdsDistinct(b.core, b.registry, side, l);
    }
  }

  lemma BesidesPrunesAll(levels: seq<Level>, visits: seq<Visit>, emptied: seq<Price>)
    requires |visits| <= |levels| && Emptied(levels, visits, emptied)
    ensures Filter(Besides(emptied), After(levels, visits)) == Prune(After(levels, visits))
  {
    hide After;
    BesidesPrunes(After(levels, visits), emptied);
  }

  /** After the walk the user lists agree with the registry, and the filled makers are
      still registered. */
  lemma MatchLegal(now: Ledger, b: Book, tk: Taker, start: StopCondition)
    requires Sound(b)
    requires now == Post(LedgerOf(b), WalkEffects(MatchWalk(b.core, tk, start).visits))
    ensures Tracks(now.users, now.registry) && Keyed(now.registry)
    ensures Legal(now.registry, FilledEffects(AllFilled(MatchWalk(b.core, tk, start).visits)))
  {
    hide Match, MatchWalk, WalkEffects, FilledEffects, AllFilled, Tracks;
    var w := MatchWalk(b.core, tk, start);
    var walk, fills := WalkEffects(w.visits), FilledEffects(AllFilled(w.visits));
    MatchMoves(b.core, b.registry, tk, start);
    assert Match(b.core, tk, start).effects == walk + fills by { MatchEffectsAre(b.core, tk, start); }
    LegalAppend(b.registry, walk, fills);
    TracksKept(b.users, b.registry, walk);
    LocatesKept(b.core.locations, b.registry, walk);
  }

  lemma MatchEffectsAre(c: Core, tk: Taker, start: StopCondition)
    ensures Match(c, tk, start).effects == WalkEffects(MatchWalk(c, tk, start).visits) + FilledEffects(AllFilled(MatchWalk(c, tk, start).visits))
  {
    hide Sweep;
  }

  /** The answer to the caller of a match. */
  function ReplyOf(tk: Taker, start: StopCondition, result: MatchResult, stpCancelled: bool, rejected: bool): Reply<MatchReply> {
    if stpCancelled && result.trades == [] then Err(SelfTradePrevented(tk.id))
    else if result.trades == [] && start.QuoteAmount? then Err(InsufficientNotional(start.remaining))
    else if result.trades == [] && tk.limit.None? then Err(InsufficientLiquidity(start.remaining, 0))
    else Ok(MatchReply(if start.QuoteAmount? then Normalize(result) else result, stpCancelled, rejected))
  }

  lemma MatchAssembled(b: Book, shelves: Core, l: Ledger, tk: Taker, start: StopCondition, reply: Reply<MatchReply>)
    requires Sound(b)
    requires var side, w := tk.side.Opposite(), MatchWalk(b.core, tk, start);
             var levels := SideOf(b.core, side);
             && shelves == WithSide(b.core.(locations := map[]), side, Prune(After(levels, w.visits)))
             && l == Post(LedgerOf(b), WalkEffects(w.visits) + FilledEffects(AllFilled(w.visits)))
             && reply == ReplyOf(tk, start, ResultOf(Slot(start), levels, w.visits), w.stpCancelled, w.rejected)
    ensures var m := Match(b.core, tk, start);
            Bind(shelves, l) == Commit(b, m.core, m.effects) && reply == m.reply && Sound(Bind(shelves, l))
  {
    hide Sweep, Good, Tracks, After, WalkEffects, FilledEffects, AllFilled, Prune, Normalize, Ids, AddTrades,
      Trades, Fold;
    MatchMoves(b.core, b.registry, tk, start);
    CommitSound(b, Match(b.core, tk, start).core, Match(b.core, tk, start).effects);
  }

  lemma SweepBegins(start: StopCondition, levels: seq<Level>, account: Ledger)
    requires forall l <- levels :: l.orders != []
    ensures ResultOf(Slot(start), levels, []) == MatchResult(Slot(start), [], [])
    ensures AllFilled([]) == [] && Emptied(levels, [], [])
    ensures After(levels, []) == levels
    ensures Post(account, WalkEffects([])) == account
  {
    assert AddTrades(MatchResult(Slot(start), [], []), []) == MatchResult(Slot(start), [], []);
    assert Ids([]) == [];
  }

  lemma UntouchedMore(slot: nat, levels: seq<Level>, done: seq<Visit>, account: Ledger, side: Side, emptied: seq<Price>)
    requires |done| < |levels| && levels[|done|].orders != [] && BestFirst(side, levels) && Emptied(levels, done, emptied)
    ensures var more := done + [Untouched(levels[|done|])];
            && ResultOf(slot, levels, more) == ResultOf(slot, levels, done)
            && AllFilled(more) == AllFilled(done)
            && After(levels, more) == After(levels, done)
            && WalkEffects(more) == WalkEffects(done)
            && Emptied(levels, more, emptied)
  {
    hide ResultOf, AllFilled, After, WalkEffects, Emptied, BestFirst;
    var v := Untouched(levels[|done|]);
    EffectsMore(done, v);
    ResultMore(slot, levels, done, v);
    AfterMore(levels, done, v);
    EmptiedMore(side, levels, done, v, emptied);
    assert levels[|done|] == Level(levels[|done|].price, v.orders);
    assert After(levels, done)[|done| := levels[|done|]] == After(levels, done);
    var m := ResultOf(slot, levels, done);
    assert Priced(levels[|done|].price, []) == [] && Ids([]) == [];
    assert m.filled + [] == m.filled;
  }

  lemma WalkOver(cfg: Config, tk: Taker, levels: seq<Level>, start: StopCondition, done: seq<Visit>,
                 stop: StopCondition, stpCancelled: bool, rejected: bool)
    requires Walking(cfg, tk, levels, start, done, stop, true, stpCancelled, rejected)
    ensures Sweep(cfg, tk, levels, start) == Walk(done, stop, stpCancelled, rejected)
  {
    hide Sweep;
  }

  lemma VisitKeepsDistinct(quantity: nat, orders: seq<Order>, back: bool, side: Side, price: Price)
    requires NoDup(Ids(orders))
    ensures NoDup(Ids(MatchVisit(quantity, orders, back, side, price, false).orders))
  {
    MatchKeepsDistinct(quantity, orders, back);
  }

  lemma MatchTrivial(orders: seq<Order>, cap: nat, back: bool)
    ensures MatchLevel(0, orders, back) == LevelMatch(orders, [], [], 0)
    ensures MatchLevel(cap, [], back) == LevelMatch([], [], [], cap)
  {
  }
}
