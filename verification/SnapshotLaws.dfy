/** A full-depth package restores the book it was taken from, and the restored book
    answers every later command as the original does. */
module SnapshotLaws {
  import opened Types
  import opened Seqs
  import opened Levels
  import opened Stp
  import opened Effects
  import opened SweepLaws
  import opened Engine
  import opened SideLaws
  import opened CoreLaws
  import opened OpLaws
  import opened Runs
  import opened MassCancelLaws
  import opened Snapshots

  /** The price level crate accepts every sound level without repeated ids. */
  ghost predicate AcceptsSound(codec: Codec) {
    forall side, l :: LevelOk(side, l) && NoDup(Ids(l.orders)) ==> codec.accepts(l)
  }

  /** The two settings that belong to the price level crate. */
  predicate SameCrate(a: Config, b: Config) {
    a.requeueBack == b.requeueBack && a.dropZero == b.dropZero
  }

  // ---- Sorting a captured side ----

  lemma {:induction false} InsertLast(l: Level, sorted: seq<Level>)
    requires forall m <- sorted :: m.price < l.price
    ensures Insert(l, sorted) == sorted + [l]
  {
    if sorted != [] {
      assert sorted[0] in sorted && forall m <- sorted[1..] :: m in sorted;
      InsertLast(l, sorted[1..]);
      assert sorted == [sorted[0]] + sorted[1..];
    }
  }

  lemma {:induction false} ReversedAppend(levels: seq<Level>, l: Level)
    ensures Reversed(levels + [l]) == [l] + Reversed(levels)
  {
    if levels != [] {
      assert (levels + [l])[0] == levels[0] && (levels + [l])[1..] == levels[1..] + [l];
      ReversedAppend(levels[1..], l);
    } else {
      assert levels + [l] == [l];
    }
  }

  lemma {:induction false} BidsSortBack(levels: seq<Level>)
    requires BestFirst(Buy, levels)
    ensures Reversed(Sorted(levels)) == levels
    ensures IdsOf(Sorted(levels)) == Ids(Ascending(Buy, levels))
  {
    if levels != [] {
      var rest := levels[1..];
      BidsSortBack(rest);
      SortedSum(AtPrice(0), rest);
      InsertLast(levels[0], Sorted(rest));
      ReversedAppend(Sorted(rest), levels[0]);
      IdsAppend(Sorted(rest), [levels[0]]);
      assert IdsOf([levels[0]]) == Ids(levels[0].orders) + IdsOf([]);
      IdsSum(Ascending(Buy, rest), levels[0].orders);
    }
  }

  lemma {:induction false} AsksSortBack(levels: seq<Level>)
    requires BestFirst(Sell, levels)
    ensures Sorted(levels) == levels
    ensures IdsOf(levels) == Ids(Ascending(Sell, levels))
  {
    if levels != [] {
      AsksSortBack(levels[1..]);
      IdsSum(levels[0].orders, Ascending(Sell, levels[1..]));
    }
  }

  // ---- A captured book is accepted ----

  lemma LevelIdsDistinct(c: Core, r: map<Id, Tag>, side: Side, l: Level)
    requires Good(c, r) && l in SideOf(c, side)
    ensures NoDup(Ids(l.orders)) && LevelOk(side, l)
  {
    var levels := SideOf(c, side);
    var i :| 0 <= i < |levels| && levels[i] == l;
    forall t ensures Sum(OfTag(Is(t)), l.orders) <= BookSum(Is(t), c) {
      SumElement(Across(OfTag(Is(t))), levels, i);
    }
    assert forall o <- l.orders :: Resting(c, o);
    PicksDistinct(c, r, l.orders);
  }

  lemma BookIdsDistinct(c: Core, r: map<Id, Tag>)
    requires Good(c, r)
    ensures NoDup(IdsOf(Sorted(c.bids) + Sorted(c.asks)))
  {
    PicksBook(c);
    PicksDistinct(c, r, AllAscending(c));
    BidsSortBack(c.bids);
    AsksSortBack(c.asks);
    IdsAppend(Sorted(c.bids), Sorted(c.asks));
    IdsSum(Ascending(Buy, c.bids), Ascending(Sell, c.asks));
  }

  lemma CapturedPrepares(accepts: Level -> bool, c: Core, r: map<Id, Tag>, symbol: Symbol)
    requires Good(c, r)
    requires forall side, l :: LevelOk(side, l) && NoDup(Ids(l.orders)) ==> accepts(l)
    ensures Prepare(accepts, Snapshot(symbol, c.bids, c.asks)) == Completed(Prepared(Sorted(c.bids), Sorted(c.asks)))
  {
    PrepareExactly(accepts, Snapshot(symbol, c.bids, c.asks));
    forall l | l in c.bids + c.asks ensures accepts(l) {
      var side := if l in c.bids then Buy else Sell;
      LevelIdsDistinct(c, r, side, l);
    }
    BookIdsDistinct(c, r);
  }

  // ---- The rebuilt registry is the original one ----

  lemma TagRests(c: Core, r: map<Id, Tag>, t: Tag, side: Side)
    requires Good(c, r)
    ensures (exists l, o :: l in SideOf(c, side) && o in l.orders && l.price == t.price && o.tag.id == t.id && o.tag.user == t.user) && t.side == side
            <==> t.id in r && r[t.id] == t && t.side == side
  {
    if exists l, o :: l in SideOf(c, side) && o in l.orders && l.price == t.price && o.tag.id == t.id && o.tag.user == t.user {
      var l, o :| l in SideOf(c, side) && o in l.orders && l.price == t.price && o.tag.id == t.id && o.tag.user == t.user;
      IdRestsOnce(c, r, side, l, o);
    }
    if t.id in r && r[t.id] == t && t.side == side {
      Found(c, r, t.id);
      var o := GetOrder(c, t.id).value;
      var queue := QueueAt(SideOf(c, side), t.price);
      FilterMember(HasId(t.id), queue, o);
      LevelAtMember(SideOf(c, side), t.price);
    }
  }

  lemma StampedExactly(c: Core, r: map<Id, Tag>, t: Tag)
    requires Good(c, r)
    ensures t in AllStamps(Buy, Sorted(c.bids)) + AllStamps(Sell, Sorted(c.asks)) <==> t.id in r && r[t.id] == t
  {
    hide Good, AllStamps, Sorted;
    StampMember(Buy, Sorted(c.bids), t);
    StampMember(Sell, Sorted(c.asks), t);
    SortedSum(AtPrice(0), c.bids);
    SortedSum(AtPrice(0), c.asks);
    TagRests(c, r, t, Buy);
    TagRests(c, r, t, Sell);
  }

  lemma RegistryBack(b: Book, c: Core, r: map<Id, Tag>)
    requires Good(c, r)
    ensures var b' := Install(b, Prepared(Sorted(c.bids), Sorted(c.asks)));
            && b'.registry == r
            && b'.core.locations == c.locations
            && Tracks(b'.users, r)
  {
    hide Install, Tracks, IdsOf, Good, AllStamps, Sorted, Rebuild, NoDup, Legal;
    assert Keyed(r) && Locates(c.locations, r) by { UnfoldGood(c, r); }
    var p := Prepared(Sorted(c.bids), Sorted(c.asks));
    BookIdsDistinct(c, r);
    InstallFacts(b, p);
    var b' := Install(b, p);
    forall t: Tag ensures t.id in b'.registry && b'.registry[t.id] == t <==> t.id in r && r[t.id] == t {
      StampedExactly(c, r, t);
    }
    RegistriesEqual(b'.registry, r);
  }

  lemma RegistriesEqual(a: map<Id, Tag>, b: map<Id, Tag>)
    requires Keyed(a) && Keyed(b)
    requires forall t: Tag :: t.id in a && a[t.id] == t <==> t.id in b && b[t.id] == t
    ensures a == b
  {
    forall id ensures id in a <==> id in b {
      if id in a {
        assert a[id].id in b;
      }
      if id in b {
        assert b[id].id in a;
      }
    }
    forall id | id in a ensures a[id] == b[id] {
      assert b[a[id].id] == a[id];
    }
  }

  /** A package of every level, restored into any book of the same symbol, reproduces the
      queues, the location index, the registry, the configuration and the next sequence
      number exactly; the per-user lists hold the same ids. */
  lemma RoundTrip(codec: Codec, b: Book, target: Book, symbol: Symbol, depth: nat)
    requires Sound(b) && AcceptsSound(codec)
    requires |b.core.bids| <= depth && |b.core.asks| <= depth
    requires SameCrate(b.core.cfg, target.core.cfg)
    ensures var k := CapturePackage(codec, b, symbol, depth);
            var out := RestorePackage(codec, target, symbol, k);
            && out.Completed?
            && out.value.core == b.core
            && out.value.registry == b.registry
            && Tracks(out.value.users, b.registry)
            && out.value.feed == Feed(target.feed.events, b.feed.next)
  {
    hide Prepare, Sorted, Reversed;
    var c := b.core;
    var s := Capture(b, symbol, depth);
    assert s == Snapshot(symbol, c.bids, c.asks);
    CapturedPrepares(codec.accepts, c, b.registry, symbol);
    RegistryBack(target, c, b.registry);
    BidsSortBack(c.bids);
    AsksSortBack(c.asks);
  }

  // ---- Restoring sound levels ----

  /** Every level of the snapshot fits its side. */
  predicate SoundLevels(s: Snapshot) {
    && (forall l <- s.bids :: LevelOk(Buy, l))
    && (forall l <- s.asks :: LevelOk(Sell, l))
  }

  lemma {:induction false} StampsWeigh(t: Tag, side: Side, levels: seq<Level>)
    requires forall l <- levels :: LevelOk(side, l)
    ensures Sum(Came(Is(t)), RestedAll(AllStamps(side, levels))) == Sum(Across(OfTag(Is(t))), levels)
  {
    hide Stamps, RestedAll, LevelOk;
    if levels == [] {
      NoStamps(t);
    } else {
      assert levels[0] in levels && forall l <- levels[1..] :: l in levels;
      StampsWeigh(t, side, levels[1..]);
      LevelWeighs(t, side, levels[0]);
      var here, rest := Stamps(side, levels[0]), AllStamps(side, levels[1..]);
      RestedSplit(here, rest);
      SumAppend(Came(Is(t)), RestedAll(here), RestedAll(rest));
    }
  }

  lemma NoStamps(t: Tag)
    ensures Sum(Came(Is(t)), RestedAll([])) == 0
  {
  }

  lemma RestedSplit(a: seq<Tag>, b: seq<Tag>)
    ensures RestedAll(a + b) == RestedAll(a) + RestedAll(b)
  {
  }

  lemma LevelWeighs(t: Tag, side: Side, l: Level)
    requires LevelOk(side, l)
    ensures Sum(Came(Is(t)), RestedAll(Stamps(side, l))) == Sum(OfTag(Is(t)), l.orders)
  {
    LevelStamps(t, side, l, |l.orders|);
    assert Stamps(side, l)[..|l.orders|] == Stamps(side, l) && l.orders[..|l.orders|] == l.orders;
  }

  lemma {:induction false} LevelStamps(t: Tag, side: Side, l: Level, k: nat)
    requires LevelOk(side, l) && k <= |l.orders|
    ensures Sum(Came(Is(t)), RestedAll(Stamps(side, l)[..k])) == Sum(OfTag(Is(t)), l.orders[..k])
  {
    if k > 0 {
      LevelStamps(t, side, l, k - 1);
      var o, tag := l.orders[k - 1], Stamps(side, l)[k - 1];
      assert o in l.orders && tag == o.tag;
      assert RestedAll(Stamps(side, l)[..k]) == RestedAll(Stamps(side, l)[..k - 1]) + [Rested(tag)];
      SumAppend(Came(Is(t)), RestedAll(Stamps(side, l)[..k - 1]), [Rested(tag)]);
      SumCons(Came(Is(t)), Rested(tag), []);
      assert [Rested(tag)] + [] == [Rested(tag)];
      assert l.orders[..k] == l.orders[..k - 1] + [o];
      SumAppend(OfTag(Is(t)), l.orders[..k - 1], [o]);
      SumCons(OfTag(Is(t)), o, []);
      assert [o] + [] == [o];
    }
  }

  lemma {:induction false} ReversedSum(f: Level -> nat, levels: seq<Level>)
    ensures Sum(f, Reversed(levels)) == Sum(f, levels)
  {
    if levels != [] {
      ReversedSum(f, levels[1..]);
      SumAppend(f, Reversed(levels[1..]), [levels[0]]);
      SumCons(f, levels[0], []);
      assert [levels[0]] + [] == [levels[0]];
    }
  }

  lemma InstallAgrees(b: Book, p: Prepared, t: Tag)
    requires NoDup(IdsOf(p.bids + p.asks))
    requires (forall l <- p.bids :: LevelOk(Buy, l)) && forall l <- p.asks :: LevelOk(Sell, l)
    ensures BookSum(Is(t), Install(b, p).core) == Registered(Install(b, p).registry, t)
  {
    hide AllStamps, Reversed, IdsOf, NoDup;
    InstallFacts(b, p);
    RegisterCounts(map[], Rebuild(p), t);
    NothingLeft(t, AllStamps(Buy, p.bids) + AllStamps(Sell, p.asks));
    var below, above := AllStamps(Buy, p.bids), AllStamps(Sell, p.asks);
    RestedSplit(below, above);
    SumAppend(Came(Is(t)), RestedAll(below), RestedAll(above));
    StampsWeigh(t, Buy, p.bids);
    StampsWeigh(t, Sell, p.asks);
    ReversedSum(Across(OfTag(Is(t))), p.bids);
  }

  lemma {:induction false} NothingLeft(t: Tag, tags: seq<Tag>)
    ensures Sum(Left(Is(t)), RestedAll(tags)) == 0
  {
    SumZero(Left(Is(t)), RestedAll(tags));
  }

  /** A restored snapshot of sound levels, whoever wrote it, gives a book with ordered queues
      and exact indexes: every theorem about runs applies from there on. */
  lemma RestoredSound(codec: Codec, b: Book, symbol: Symbol, s: Snapshot)
    requires Restore(codec, b, symbol, s).Completed? && SoundLevels(s)
    ensures Sound(Restore(codec, b, symbol, s).value)
  {
    hide Prepare, Sorted, Reversed, Rebuild, AllStamps, IdsOf, NoDup, Ascends, Register, Locate, Track, BestFirst;
    PrepareExactly(codec.accepts, s);
    var p := Prepared(Sorted(s.bids), Sorted(s.asks));
    var b' := Install(b, p);
    SortedSum(AtPrice(0), s.bids);
    SortedSum(AtPrice(0), s.asks);
    ReversedDescends(p.bids);
    ReversedDescends(p.asks);
    ReversedMembers(p.bids);
    InstallFacts(b, p);
    forall t ensures BookSum(Is(t), b'.core) == Registered(b'.registry, t) {
      InstallAgrees(b, p, t);
    }
  }

  lemma PackageSound(codec: Codec, b: Book, symbol: Symbol, k: Package)
    requires RestorePackage(codec, b, symbol, k).Completed? && SoundLevels(k.snapshot)
    ensures Sound(RestorePackage(codec, b, symbol, k).value)
  {
    hide Restore;
    RestoredSound(codec, b, symbol, k.snapshot);
    var restored := Restore(codec, b, symbol, k.snapshot).value;
    var out := Configure(restored, k);
    forall t ensures BookSum(Is(t), out.core) == Registered(out.registry, t) {
      assert BookSum(Is(t), restored.core) == Registered(restored.registry, t);
    }
  }

  // ---- Later commands ----

  /** Two books that differ only in past events and in the order of the per-user lists. */
  ghost predicate Alike(a: Book, b: Book) {
    && Sound(a)
    && Sound(b)
    && b.core == a.core
    && b.registry == a.registry
    && b.feed.next == a.feed.next
  }

  /** Both feeds grew by the same events. */
  predicate SameGrowth(f: Feed, f': Feed, g: Feed, g': Feed) {
    && |f.events| <= |f'.events| && f'.events[..|f.events|] == f.events
    && |g.events| <= |g'.events| && g'.events[..|g.events|] == g.events
    && f'.events[|f.events|..] == g'.events[|g.events|..]
    && f'.next == g'.next
  }

  lemma GrowthThen(f: Feed, f1: Feed, f2: Feed, g: Feed, g1: Feed, g2: Feed)
    requires SameGrowth(f, f1, g, g1) && SameGrowth(f1, f2, g1, g2)
    ensures SameGrowth(f, f2, g, g2)
  {
    assert f2.events == f.events + f1.events[|f.events|..] + f2.events[|f1.events|..];
    assert g2.events == g.events + g1.events[|g.events|..] + g2.events[|g1.events|..];
    assert f2.events[|f.events|..] == f1.events[|f.events|..] + f2.events[|f1.events|..];
    assert g2.events[|g.events|..] == g1.events[|g.events|..] + g2.events[|g1.events|..];
  }

  lemma {:induction false} EmitGrowth(f: Feed, g: Feed, es: seq<Effect>)
    requires f.next == g.next
    ensures SameGrowth(f, Emit(f, es), g, Emit(g, es))
    decreases |es|
  {
    hide SameGrowth;
    if es == [] {
      NoGrowth(f, g);
    } else {
      var f1, g1 := EmitStep(f, es[0]), EmitStep(g, es[0]);
      StepGrowth(f, g, es[0]);
      assert f1.next == g1.next;
      EmitGrowth(f1, g1, es[1..]);
      GrowthThen(f, f1, Emit(f, es), g, g1, Emit(g, es));
    }
  }

  lemma NoGrowth(f: Feed, g: Feed)
    requires f.next == g.next
    ensures SameGrowth(f, f, g, g)
  {
  }

  lemma StepGrowth(f: Feed, g: Feed, e: Effect)
    requires f.next == g.next
    ensures SameGrowth(f, EmitStep(f, e), g, EmitStep(g, e))
  {
  }

  predicate IsTrade(e: Event) {
    e.TradeEvent?
  }

  predicate Extends(f: Feed, f': Feed) {
    |f.events| <= |f'.events| && f'.events[..|f.events|] == f.events
  }

  /** The trade events that came after `f`. */
  function NewTrades(f: Feed, f': Feed): seq<Event> {
    if |f.events| <= |f'.events| then Filter(IsTrade, f'.events[|f.events|..]) else []
  }

  /** Both feeds grew by the same trade events, numbers included. */
  predicate SameTrades(f: Feed, f': Feed, g: Feed, g': Feed) {
    && Extends(f, f') && Extends(g, g')
    && NewTrades(f, f') == NewTrades(g, g')
    && f'.next == g'.next
  }

  lemma GrowthTrades(f: Feed, f': Feed, g: Feed, g': Feed)
    requires SameGrowth(f, f', g, g')
    ensures SameTrades(f, f', g, g')
  {
  }

  lemma NewTradesThen(f: Feed, f1: Feed, f2: Feed)
    requires Extends(f, f1) && Extends(f1, f2)
    ensures Extends(f, f2) && NewTrades(f, f2) == NewTrades(f, f1) + NewTrades(f1, f2)
  {
    var n, m := |f.events|, |f1.events|;
    assert f2.events[n..] == f1.events[n..] + f2.events[m..];
    FilterAppend(IsTrade, f1.events[n..], f2.events[m..]);
  }

  lemma TradesThen(f: Feed, f1: Feed, f2: Feed, g: Feed, g1: Feed, g2: Feed)
    requires SameTrades(f, f1, g, g1) && SameTrades(f1, f2, g1, g2)
    ensures SameTrades(f, f2, g, g2)
  {
    hide NewTrades, Extends;
    NewTradesThen(f, f1, f2);
    NewTradesThen(g, g1, g2);
  }

  /** Effects without a trade report send no trade event. */
  lemma {:induction false} QuietTrades(f: Feed, es: seq<Effect>)
    requires forall e <- es :: !e.Traded?
    ensures Extends(f, Emit(f, es)) && NewTrades(f, Emit(f, es)) == []
    decreases |es|
  {
    hide NewTrades, Extends;
    if es == [] {
      NoNewTrades(f);
    } else {
      assert es[0] in es && forall e <- es[1..] :: e in es;
      var f1 := EmitStep(f, es[0]);
      QuietStep(f, es[0]);
      QuietTrades(f1, es[1..]);
      NewTradesThen(f, f1, Emit(f, es));
    }
  }

  lemma NoNewTrades(f: Feed)
    ensures Extends(f, f) && NewTrades(f, f) == []
  {
  }

  lemma QuietStep(f: Feed, e: Effect)
    requires !e.Traded?
    ensures Extends(f, EmitStep(f, e)) && NewTrades(f, EmitStep(f, e)) == []
  {
    var f' := EmitStep(f, e);
    FilterAll(IsTrade, f'.events[|f.events|..]);
  }

  lemma SameLength(a: seq<Id>, b: seq<Id>)
    requires NoDup(a) && NoDup(b) && forall id :: id in a <==> id in b
    ensures |a| == |b| && IdSet(a) == IdSet(b)
  {
    DistinctSize(a);
    DistinctSize(b);
    assert IdSet(a) == IdSet(b);
  }

  lemma {:induction false} DistinctSize(ids: seq<Id>)
    requires NoDup(ids)
    ensures |IdSet(ids)| == |ids|
  {
    if ids == [] {
      assert IdSet(ids) == {};
    } else {
      DistinctSize(ids[1..]);
      assert ids[0] !in IdSet(ids[1..]);
      assert IdSet(ids) == IdSet(ids[1..]) + {ids[0]};
    }
  }

  /** Cancelling distinct resting ids sends one event each. */
  lemma {:induction false} CancelEachEvents(c: Core, r: map<Id, Tag>, ids: seq<Id>, feed: Feed)
    requires Good(c, r) && NoDup(ids) && forall id <- ids :: id in r
    ensures Emit(feed, CancelEach(c, ids).effects).next == feed.next + |ids|
    decreases |ids|
  {
    hide Good;
    if ids != [] {
      var first := Cancel(c, ids[0]);
      CancelMoves(c, r, ids[0]);
      CancelRegisters(c, r, ids[0]);
      assert Good(first.core, r - {ids[0]}) by { UnfoldMoves(c, r, first.effects, first.core); }
      assert ids[0] in ids;
      forall id | id in ids[1..] ensures id in r - {ids[0]} {
        var k :| 0 <= k < |ids[1..]| && ids[1..][k] == id;
        assert ids[k + 1] == id;
      }
      Found(c, r, ids[0]);
      var rest := CancelEach(first.core, ids[1..]).effects;
      FoldAppend(EmitStep, feed, first.effects, rest);
      FoldPair(EmitStep, feed, first.effects[0], first.effects[1]);
      CancelEachEvents(first.core, r - {ids[0]}, ids[1..], Emit(feed, first.effects));
    }
  }

  /** Two indexes of the same registry list the same ids for a user. */
  lemma SameLists(r: map<Id, Tag>, users: map<User, seq<Id>>, users': map<User, seq<Id>>, user: User)
    requires Tracks(users, r) && Tracks(users', r)
    ensures var i, j := ListOf(users, user), ListOf(users', user);
            && NoDup(i) && NoDup(j)
            && (forall id <- i :: id in r) && (forall id <- j :: id in r)
            && |i| == |j| && IdSet(i) == IdSet(j)
  {
    var i, j := ListOf(users, user), ListOf(users', user);
    assert forall id :: id in i <==> id in r && r[id].user == user;
    assert forall id :: id in j <==> id in r && r[id].user == user;
    SameLength(i, j);
  }

  /** Cancelling the same ids in any order leaves the same book. */
  lemma CancelUserAlike(a: Book, b: Book, user: User)
    requires Alike(a, b)
    ensures var a', b' := Step(a, CancelUser(user)), Step(b, CancelUser(user));
            a'.core == b'.core && a'.registry == b'.registry && a'.feed.next == b'.feed.next
  {
    hide Good, Purged, CancelEach, Tracks, NoDup;
    var c, r := a.core, a.registry;
    var i, j := ListOf(a.users, user), ListOf(b.users, user);
    var x, y := CancelEach(c, i), CancelEach(c, j);
    SameLists(r, a.users, b.users, user);
    CancelEachEvents(c, r, i, a.feed);
    CancelEachEvents(c, r, j, b.feed);
    CancelEachRegisters(c, r, i);
    CancelEachRegisters(c, r, j);
    forall s: Side ensures SideOf(x.core, s) == SideOf(y.core, s) {
      CancelByUserExact(c, r, a.users, user, s);
      CancelByUserExact(c, r, b.users, user, s);
    }
    assert x.core.bids == SideOf(x.core, Buy) && x.core.asks == SideOf(x.core, Sell);
    assert y.core.bids == SideOf(y.core, Buy) && y.core.asks == SideOf(y.core, Sell);
    SameIndex(c, r, i, j);
  }

  lemma SameIndex(c: Core, r: map<Id, Tag>, i: seq<Id>, j: seq<Id>)
    requires Good(c, r)
    requires Register(r, CancelEach(c, i).effects) == Register(r, CancelEach(c, j).effects)
    ensures CancelEach(c, i).core.locations == CancelEach(c, j).core.locations
    ensures SameSetup(c, CancelEach(c, i).core) && SameSetup(c, CancelEach(c, j).core)
  {
    hide CancelEach, CoreOk, Agrees;
    CancelEachMoves(c, r, i);
    CancelEachMoves(c, r, j);
  }

  lemma CancelUserQuiet(a: Book, user: User)
    requires Sound(a)
    ensures var a' := Step(a, CancelUser(user));
            Extends(a.feed, a'.feed) && NewTrades(a.feed, a'.feed) == []
  {
    hide Good, Tracks, CancelEach, Extends, NewTrades;
    var ids := ListOf(a.users, user);
    CancelEachRegisters(a.core, a.registry, ids);
    QuietTrades(a.feed, CancelEach(a.core, ids).effects);
  }

  /** One command keeps the books alike and makes both send the same trades: the same makers
      in the same order under the same numbers. Unless it cancels by user, all events agree. */
  lemma StepAlike(a: Book, b: Book, cmd: Command)
    requires Alike(a, b) && Wellformed(a.core.cfg, cmd)
    ensures Alike(Step(a, cmd), Step(b, cmd))
    ensures SameTrades(a.feed, Step(a, cmd).feed, b.feed, Step(b, cmd).feed)
    ensures !cmd.CancelUser? ==> SameGrowth(a.feed, Step(a, cmd).feed, b.feed, Step(b, cmd).feed)
  {
    hide Good, SameGrowth, Tracks, Wellformed, Extends, NewTrades;
    StepSound(a, cmd);
    StepSound(b, cmd);
    if cmd.CancelUser? {
      CancelUserAlike(a, b, cmd.user);
      CancelUserQuiet(a, cmd.user);
      CancelUserQuiet(b, cmd.user);
    } else {
      StepGrows(a, b, cmd);
      GrowthTrades(a.feed, Step(a, cmd).feed, b.feed, Step(b, cmd).feed);
    }
  }

  lemma StepGrows(a: Book, b: Book, cmd: Command)
    requires a.core == b.core && a.registry == b.registry && a.feed.next == b.feed.next && !cmd.CancelUser?
    ensures var a', b' := Step(a, cmd), Step(b, cmd);
            && a'.core == b'.core && a'.registry == b'.registry
            && SameGrowth(a.feed, a'.feed, b.feed, b'.feed) && a'.feed.next == b'.feed.next
  {
    hide Add, Cancel, UpdateOrder, Take, TakeMarket, CancelAll, CancelBySide, CancelByRange, EvictExpired;
    var c := a.core;
    match cmd
    case Submit(o, now) => EmitGrowth(a.feed, b.feed, Add(c, o, now).effects);
    case CancelOne(id) => EmitGrowth(a.feed, b.feed, Cancel(c, id).effects);
    case Change(u, now) => EmitGrowth(a.feed, b.feed, UpdateOrder(c, u, now).effects);
    case Execute(tk, stop) => EmitGrowth(a.feed, b.feed, Take(c, tk, stop).effects);
    case Market(id, user, side, stop) => EmitGrowth(a.feed, b.feed, TakeMarket(c, MarketTaker(id, user, side), stop).effects);
    case CancelEverything => EmitGrowth(a.feed, b.feed, CancelAll(c).effects);
    case CancelSide(s) => EmitGrowth(a.feed, b.feed, CancelBySide(c, s).effects);
    case CancelRange(s, low, high) => EmitGrowth(a.feed, b.feed, CancelByRange(c, s, low, high).effects);
    case Evict(now) => EmitGrowth(a.feed, b.feed, EvictExpired(c, now).effects);
    case SetKillSwitch(on) => NoGrowth(a.feed, b.feed);
    case SetClose(close) => NoGrowth(a.feed, b.feed);
  }

  /** Every later command stream: the queues, indexes and sequence numbers stay equal and both
      books report the same trades. Only the order of level events inside a cancellation by
      user can differ: without one, all events agree. */
  lemma {:induction false} RunsAlike(a: Book, b: Book, cmds: seq<Command>)
    requires Alike(a, b) && forall cmd <- cmds :: Wellformed(a.core.cfg, cmd)
    ensures Alike(Run(a, cmds), Run(b, cmds))
    ensures SameTrades(a.feed, Run(a, cmds).feed, b.feed, Run(b, cmds).feed)
    ensures (forall cmd <- cmds :: !cmd.CancelUser?) ==> SameGrowth(a.feed, Run(a, cmds).feed, b.feed, Run(b, cmds).feed)
    decreases |cmds|
  {
    hide Sound, Step, SameGrowth, SameTrades, Wellformed;
    if cmds == [] {
      NoGrowth(a.feed, b.feed);
      GrowthTrades(a.feed, a.feed, b.feed, b.feed);
    } else {
      assert cmds[0] in cmds && forall cmd <- cmds[1..] :: cmd in cmds;
      var a1, b1 := Step(a, cmds[0]), Step(b, cmds[0]);
      StepAlike(a, b, cmds[0]);
      StepSound(a, cmds[0]);
      RunsAlike(a1, b1, cmds[1..]);
      TradesThen(a.feed, a1.feed, Run(a, cmds).feed, b.feed, b1.feed, Run(b, cmds).feed);
      if forall cmd <- cmds :: !cmd.CancelUser? {
        GrowthThen(a.feed, a1.feed, Run(a, cmds).feed, b.feed, b1.feed, Run(b, cmds).feed);
      }
    }
  }

  /** The restored book answers every later command stream as the original would have: the
      same queues and indexes and the same trades under the same numbers. */
  lemma RestoredRuns(codec: Codec, b: Book, target: Book, symbol: Symbol, depth: nat, cmds: seq<Command>)
    requires Sound(b) && AcceptsSound(codec)
    requires |b.core.bids| <= depth && |b.core.asks| <= depth
    requires SameCrate(b.core.cfg, target.core.cfg)
    requires forall cmd <- cmds :: Wellformed(b.core.cfg, cmd)
    ensures var out := RestorePackage(codec, target, symbol, CapturePackage(codec, b, symbol, depth));
            && out.Completed?
            && Run(out.value, cmds).core == Run(b, cmds).core
            && Tracks(Run(out.value, cmds).users, Run(b, cmds).registry)
            && SameTrades(b.feed, Run(b, cmds).feed, out.value.feed, Run(out.value, cmds).feed)
            && ((forall cmd <- cmds :: !cmd.CancelUser?) ==>
                  SameGrowth(b.feed, Run(b, cmds).feed, out.value.feed, Run(out.value, cmds).feed))
  {
    hide RestorePackage, CapturePackage, Run, SameGrowth, SameTrades, Good, Tracks;
    RoundTrip(codec, b, target, symbol, depth);
    var back := RestorePackage(codec, target, symbol, CapturePackage(codec, b, symbol, depth)).value;
    RunsAlike(b, back, cmds);
  }
}
