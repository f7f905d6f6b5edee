/** Short runs from the empty book that reach the corners where a promise of the engine
    fails: each is the concrete side of a law that says exactly when it holds. */
module CornerCases {
  import opened Types
  import opened Seqs
  import opened Orders
  import opened Levels
  import opened Stp
  import opened Effects
  import opened Matching
  import opened VisitLaws
  import opened SelfCross
  import opened BudgetLaws
  import opened Engine
  import opened CoreLaws
  import opened OpLaws
  import opened Runs
  import opened SubmitLaws
  import opened ModifyLaws
  import opened NotionalLaws
  import opened MassCancelLaws

  // ---- Building a book from orders that do not cross ----

  /** The order is admitted and meets nothing on the other side. */
  predicate Quiet(c: Core, o: Order) {
    && Proper(o)
    && !Immediate(o)
    && TotalQuantity(o) > 0
    && Refusal(c, o, 0).None?
    && !WillCross(c, o.tag.price, o.tag.side)
  }

  lemma QuietAdd(c: Core, o: Order)
    requires CoreOk(c) && Quiet(c, o)
    ensures Add(c, o, 0) == Rest(c, o)
  {
    hide Match, Rest, WillCross, Room;
    NoCrossNoMatch(c, o);
    assert [] + Report(o.tag.id, []) == [];
    assert [] + Rest(c, o).effects == Rest(c, o).effects;
  }

  /** A quiet submission appends the order to its level and to both indexes. */
  lemma QuietSubmit(b: Book, o: Order)
    requires CoreOk(b.core) && Quiet(b.core, o) && Room(SideOf(b.core, o.tag.side), o)
    ensures var c, x := b.core, Step(b, Submit(o, 0));
            && x.core == WithSide(c, o.tag.side, Place(o.tag.side, SideOf(c, o.tag.side), o))
                         .(locations := c.locations[o.tag.id := Location(o.tag.price, o.tag.side)])
            && x.users == b.users[o.tag.user := ListOf(b.users, o.tag.user) + [o.tag.id]]
  {
    hide Add, Quiet;
    QuietAdd(b.core, o);
    var es := Rest(b.core, o).effects;
    FoldPair(LocateStep, b.core.locations, es[0], es[1]);
    FoldPair(TrackStep, b.users, es[0], es[1]);
  }

  function Plain(dropZero: bool): Config {
    Config(None, None, None, None, Off, false, dropZero)
  }

  function Limit(id: Id, user: User, side: Side, price: Price, quantity: nat): Order {
    Order(Tag(id, user, side, price), Gtc, Standard, quantity, 0)
  }

  /** Two orders of one side, the second no better than the first. */
  function Pair(a: Order, b: Order): seq<Level> {
    if a.tag.price == b.tag.price then [Level(a.tag.price, [a, b])]
    else [Level(a.tag.price, [a]), Level(b.tag.price, [b])]
  }

  predicate Pairs(a: Order, b: Order) {
    && a.kind.Standard? && b.kind.Standard?
    && a.tif.Gtc? && b.tif.Gtc?
    && Proper(a) && Proper(b)
    && a.visible > 0 && b.visible > 0
    && a.tag.id != b.tag.id
    && a.tag.side == b.tag.side
    && (a.tag.price == b.tag.price ==> a.visible + b.visible <= U64_MAX)
    && !Better(a.tag.side, b.tag.price, a.tag.price)
  }

  lemma FirstRests(dropZero: bool, o: Order)
    requires o.kind.Standard? && o.tif.Gtc? && Proper(o) && o.visible > 0
    ensures var b := Step(Empty(Plain(dropZero)), Submit(o, 0));
            && b.core == WithSide(Empty(Plain(dropZero)).core, o.tag.side, [Level(o.tag.price, [o])])
                         .(locations := map[o.tag.id := Location(o.tag.price, o.tag.side)])
            && b.users == map[o.tag.user := [o.tag.id]]
  {
    hide Step, Rest;
    assert Sum(Total, []) == 0;
    QuietSubmit(Empty(Plain(dropZero)), o);
    assert [] + [o.tag.id] == [o.tag.id];
  }

  /** The two orders rest one behind the other. */
  lemma PairRests(dropZero: bool, a: Order, b: Order)
    requires Pairs(a, b)
    ensures var x := Run(Empty(Plain(dropZero)), [Submit(a, 0), Submit(b, 0)]);
            && Inv(x)
            && x.core == WithSide(Empty(Plain(dropZero)).core, a.tag.side, Pair(a, b))
                         .(locations := map[a.tag.id := Location(a.tag.price, a.tag.side), b.tag.id := Location(b.tag.price, b.tag.side)])
  {
    hide Step, Inv, Rest, Good;
    var b0, cmds := Empty(Plain(dropZero)), [Submit(a, 0), Submit(b, 0)];
    var b1 := Step(b0, cmds[0]);
    var b2 := Step(b1, cmds[1]);
    EmptyInv(Plain(dropZero));
    StepInv(b0, cmds[0]);
    StepInv(b1, cmds[1]);
    FirstRests(dropZero, a);
    assert CoreOk(b1.core) by { UnfoldInv(b1); }
    var levels := SideOf(b1.core, a.tag.side);
    assert levels == [Level(a.tag.price, [a])] && levels[1..] == [];
    assert Room(levels, b) by {
      SumCons(Total, a, []);
      assert [a] + [] == [a];
      assert LevelAt(levels[1..], b.tag.price).None?;
      assert QueueAt(levels, b.tag.price) == if a.tag.price == b.tag.price then [a] else [];
    }
    assert Quiet(b1.core, b);
    QuietSubmit(b1, b);
    assert [a] + [b] == [a, b];
    assert Place(a.tag.side, [], b) == [Level(b.tag.price, [b])];
    assert cmds[1..] == [cmds[1]] && [cmds[1]][1..] == [];
    assert Run(b1, [cmds[1]]) == Run(b2, []) == b2;
  }

  lemma UnfoldInv(b: Book)
    requires Inv(b)
    ensures Good(b.core, b.registry) && CoreOk(b.core)
  {
  }

  /** What follows the sweep of an admitted order. */
  lemma AddFinishes(c: Core, o: Order)
    requires Refusal(c, o, 0).None? && Match(c, TakerOf(o), BaseQty(TotalQuantity(o))).reply.Ok?
    ensures var m := Match(c, TakerOf(o), BaseQty(TotalQuantity(o))); Add(c, o, 0) == Finish(m.core, o, m.effects, m.reply.value)
  {
    hide Refusal, Match, Finish;
  }

  /** An order that rests on an empty side. */
  lemma RestsAlone(c: Core, o: Order)
    requires SideOf(c, o.tag.side) == [] && Total(o) <= U64_MAX
    ensures Rest(c, o).core == WithSide(c, o.tag.side, [Level(o.tag.price, [o])])
                               .(locations := c.locations[o.tag.id := Location(o.tag.price, o.tag.side)])
  {
    assert Sum(Total, []) == 0;
    var es := Rest(c, o).effects;
    FoldPair(LocateStep, c.locations, es[0], es[1]);
  }

  // ---- A match that visits one level ----

  lemma OneVisit(levels: seq<Level>, v: Visit)
    requires levels != []
    ensures Trades(levels, [v]) == Priced(levels[0].price, v.fills)
    ensures AllFilled([v]) == v.filled && WalkEffects([v]) == v.effects
    ensures After(levels, [v]) == [Level(levels[0].price, v.orders)] + levels[1..]
  {
    assert [v][1..] == [];
    assert Trades(levels[1..], []) == [];
    assert AllFilled([]) == [];
    assert WalkEffects([]) == [];
    assert After(levels[1..], []) == levels[1..];
    assert v.filled + [] == v.filled && v.effects + [] == v.effects;
  }

  lemma OneTrade(q: nat, t: Trade)
    requires t.quantity <= q
    ensures AddTrades(MatchResult(q, [], []), [t]) == MatchResult(q - t.quantity, [t], [])
  {
    FoldCons(AddTrade, MatchResult(q, [], []), t, []);
    assert [t] + [] == [t] && [] + [t] == [t];
  }

  /** One visit with at most one fill, and what the match makes of it. */
  lemma OneVisitMatch(c: Core, tk: Taker, q: nat, v: Visit, left: nat)
    requires SideOf(c, tk.side.Opposite()) != [] && MatchWalk(c, tk, BaseQty(q)) == Walk([v], BaseQty(left), false, false)
    requires v.fills == [] ==> tk.limit.Some?
    requires v.fills != [] ==> |v.fills| == 1 && v.fills[0].quantity <= q
    ensures var m, levels := Match(c, tk, BaseQty(q)), SideOf(c, tk.side.Opposite());
            && m.reply.Ok? && !m.reply.value.rejected && !m.reply.value.stpCancelled
            && m.reply.value.result.remaining == q - (if v.fills == [] then 0 else v.fills[0].quantity)
            && m.reply.value.result.trades == Priced(levels[0].price, v.fills)
            && m.effects == v.effects + FilledEffects(v.filled)
            && m.core == Settle(c, tk.side.Opposite(), Prune([Level(levels[0].price, v.orders)] + levels[1..]), m.effects)
  {
    hide MatchWalk, Sweep, AddTrades, Prune, Settle, Trades, AllFilled, WalkEffects;
    var levels := SideOf(c, tk.side.Opposite());
    OneVisit(levels, v);
    if v.fills == [] {
      assert AddTrades(MatchResult(q, [], []), []) == MatchResult(q, [], []) by { NoTrade(q); }
      assert Priced(levels[0].price, v.fills) == [];
    } else {
      var t := Trade(v.fills[0].maker, v.fills[0].owner, levels[0].price, v.fills[0].quantity);
      assert Priced(levels[0].price, v.fills) == [t];
      OneTrade(q, t);
    }
  }

  lemma NoTrade(q: nat)
    ensures AddTrades(MatchResult(q, [], []), []) == MatchResult(q, [], [])
  {
  }

  // ---- A quantity update to zero ----

  lemma Validated(c: Core, o: Order)
    requires c.cfg == Plain(true) && o.kind.Standard? && o.tif.Gtc?
    ensures Validate(c, o, 0).None?
  {
  }

  /** Two asks on one level and an update of the first to zero, where the level drops such
      an order: it leaves the queue but not the indexes, which no registry explains. */
  lemma ZeroUpdateOrphans() returns (cfg: Config, cmds: seq<Command>, u: Update)
    ensures forall cmd <- cmds :: Wellformed(cfg, cmd)
    ensures Sized(u) && u.UpdateQuantity? && u.quantity == 0
    ensures var b := Run(Empty(cfg), cmds);
            UpdateOrder(b.core, u, 0).reply.Ok? && !Exact(Step(b, Change(u, 0)).core)
  {
    hide Run, Inv, Good, Exact, Resize;
    var first, second := Limit(1, 1, Sell, 100, 5), Limit(2, 2, Sell, 100, 5);
    cfg, cmds, u := Plain(true), [Submit(first, 0), Submit(second, 0)], UpdateQuantity(1, 0);
    PairRests(true, first, second);
    var b := Run(Empty(cfg), cmds);
    var c, o := b.core, first.(visible := 0);
    UnfoldInv(b);
    assert GetOrder(c, 1) == Some(first);
    Validated(c, o);
    assert [first, second][1..] == [second] && [second][1..] == [];
    assert Filter(Not(HasId(1)), [first, second]) == [second];
    assert Orphans(c, o);
    ResizeReplies(c, first, o);
    ResizeExactly(c, b.registry, first, o, 0);
  }

  lemma ResizeReplies(c: Core, prior: Order, o: Order)
    requires Validate(c, o, 0).None? && c.cfg.dropZero && Total(o) == 0
    ensures Resize(c, prior, o, 0).reply.Ok?
  {
  }

  // ---- A modify into a full level ----

  /** A bid that fills its level and a small one below it: moving the small one onto the
      full level is refused, and the order is gone. */
  lemma FullLevelLosesOrder() returns (cfg: Config, cmds: seq<Command>, u: Update)
    ensures forall cmd <- cmds :: Wellformed(cfg, cmd)
    ensures Sized(u) && u.UpdatePrice?
    ensures var b := Run(Empty(cfg), cmds); var x := UpdateOrder(b.core, u, 0);
            && GetOrder(b.core, u.id).Some?
            && x.reply == Err(LevelCapacity(u.id))
            && GetOrder(x.core, u.id).None?
  {
    hide Run, Inv, Good, UpdateOrder;
    var full, small := Limit(1, 1, Buy, 100, U64_MAX), Limit(2, 2, Buy, 99, 1);
    cfg, cmds, u := Plain(true), [Submit(full, 0), Submit(small, 0)], UpdatePrice(2, 100);
    PairRests(true, full, small);
    var b := Run(Empty(cfg), cmds);
    UnfoldInv(b);
    MoveRefused(b.core, b.registry, full, small);
  }

  lemma SmallFound(c: Core, full: Order, small: Order)
    requires full.tag.id == 1 && small.tag.id == 2 && c.bids == [Level(100, [full]), Level(99, [small])]
    requires 2 in c.locations && c.locations[2] == Location(99, Buy)
    ensures GetOrder(c, 2) == Some(small)
    ensures Cancel(c, 2).core == c.(bids := [Level(100, [full])], locations := c.locations - {2})
  {
    assert c.bids[1..] == [Level(99, [small])] && c.bids[1..][1..] == [];
    assert LevelAt(c.bids[1..], 99) == Some(Level(99, [small]));
    assert LevelAt(c.bids, 99) == Some(Level(99, [small]));
    assert [small][1..] == [];
    assert Filter(Not(HasId(2)), [small]) == [];
    var es := Cancel(c, 2).effects;
    FoldPair(LocateStep, c.locations, es[0], es[1]);
    assert PutQueue(c.bids[1..], 99, []) == [];
  }

  lemma MoveRefused(c: Core, r: map<Id, Tag>, full: Order, small: Order)
    requires Good(c, r) && c.cfg == Plain(true) && !c.killed && c.close == None && c.asks == []
    requires full == Limit(1, 1, Buy, 100, U64_MAX) && small == Limit(2, 2, Buy, 99, 1)
    requires c.bids == [Level(100, [full]), Level(99, [small])]
    requires 2 in c.locations && c.locations[2] == Location(99, Buy)
    ensures GetOrder(c, 2).Some?
    ensures var x := UpdateOrder(c, UpdatePrice(2, 100), 0);
            x.reply == Err(LevelCapacity(2)) && GetOrder(x.core, 2).None?
  {
    hide Good, Modify, Cancel, Add, Reaches, GetOrder;
    var u, o := UpdatePrice(2, 100), small.(tag := small.tag.(price := 100));
    SmallFound(c, full, small);
    RevisedReplaces(c, r, u, 0);
    Validated(c, o);
    ModifyAtomicExactly(c, r, o, 0);
    var cut := Cancel(c, 2).core;
    assert !Room(cut.bids, o) by {
      SumCons(Total, full, []);
      assert [full] + [] == [full];
    }
    Validated(cut, o);
    assert Quiet(cut, o);
    assert CoreOk(cut) by {
      CancelMoves(c, r, 2);
      UnfoldMoves(c, r, Cancel(c, 2).effects, cut);
      UnfoldGood(cut, Register(r, Cancel(c, 2).effects));
    }
    QuietAdd(cut, o);
    ModifyReply(c, o);
  }

  lemma ModifyReply(c: Core, o: Order)
    requires PassesChecks(c, o, 0) && Add(Cancel(c, o.tag.id).core, o, 0).reply.Err?
    ensures Modify(c, o, 0).reply == Err(Add(Cancel(c, o.tag.id).core, o, 0).reply.error)
  {
    hide Cancel, Add, Validate, Reaches;
  }

  // ---- A trade that is not reported ----

  lemma HugeReach(cfg: Config, o: Order)
    requires cfg.stp.Off? && o.kind.Standard? && o.visible == U64_MAX
    ensures Reach(cfg, ANONYMOUS, [o]) == U64_MAX && Decide([o], ANONYMOUS, cfg.stp).NoConflict?
  {
    SumCons(Drawable, o, []);
    assert [o] + [] == [o];
  }

  lemma TooMuch(c: Core, tk: Taker, cheap: Order, dear: Order)
    requires c.cfg == Plain(false) && c.asks == [Level(1, [cheap]), Level(2, [dear])]
    requires cheap.kind.Standard? && cheap.visible == U64_MAX && dear.kind.Standard? && dear.visible == U64_MAX
    requires tk == Taker(9, ANONYMOUS, Buy, None, false)
    ensures QuoteWalk(c.cfg, tk, c.asks, U64_MAX + 2) == U64_MAX + 1
  {
    hide Reach, Decide;
    HugeReach(c.cfg, cheap);
    HugeReach(c.cfg, dear);
    QuoteStep(c.cfg, tk, c.asks, U64_MAX + 2);
    assert c.asks[1..] == [Level(2, [dear])];
    QuoteStep(c.cfg, tk, c.asks[1..], 2);
  }

  /** Two asks of the largest quantity at 1 and 2 and an amount that buys all of the first and
      one of the second: the second trade does not fit the quantity slot and is missing from
      the result, although both makers traded. */
  lemma NotionalLosesTrade() returns (cfg: Config, cmds: seq<Command>, tk: Taker, r: nat)
    ensures forall cmd <- cmds :: Wellformed(cfg, cmd)
    ensures tk.side == Buy && r <= U128_MAX
    ensures var c := Run(Empty(cfg), cmds).core; var m := Match(c, tk, QuoteAmount(r));
            m.reply.Ok? && m.reply.value.result.trades != Trades(c.asks, MatchWalk(c, tk, QuoteAmount(r)).visits)
  {
    hide Run, Match, Sweep, Inv, QuoteWalk;
    var cheap, dear := Limit(1, 1, Sell, 1, U64_MAX), Limit(2, 2, Sell, 2, U64_MAX);
    cfg, cmds := Plain(false), [Submit(cheap, 0), Submit(dear, 0)];
    tk, r := Taker(9, ANONYMOUS, Buy, None, false), U64_MAX + 2;
    PairRests(false, cheap, dear);
    var c := Run(Empty(cfg), cmds).core;
    TooMuch(c, tk, cheap, dear);
    MatchResultLaws(c, tk, QuoteAmount(r));
    NotionalSucceedsExactly(c, tk, r);
  }

  // ---- A list that does not follow admission ----

  function Ask(id: Id): Order { Limit(id, 1, Sell, 100, 5) }

  /** Asks of one user on one level, and nothing else. */
  predicate Queued(b: Book, orders: seq<Order>, ids: seq<Id>) {
    && b.core.cfg == Plain(false) && !b.core.killed && b.core.close == None
    && b.core.bids == [] && b.core.asks == [Level(100, orders)]
    && b.users == map[1 := ids]
  }

  lemma AskJoins(b: Book, orders: seq<Order>, ids: seq<Id>, id: Id)
    requires CoreOk(b.core) && Queued(b, orders, ids)
    requires id !in b.core.locations && Sum(Total, orders) + 5 <= U64_MAX
    ensures var x := Step(b, Submit(Ask(id), 0));
            && Queued(x, orders + [Ask(id)], ids + [id])
            && x.core.locations.Keys == b.core.locations.Keys + {id}
            && Sum(Total, orders + [Ask(id)]) == Sum(Total, orders) + 5
  {
    hide Step, Rest;
    QuietSubmit(b, Ask(id));
    assert b.core.asks[1..] == [];
    SumAppend(Total, orders, [Ask(id)]);
    SumCons(Total, Ask(id), []);
    assert [Ask(id)] + [] == [Ask(id)];
  }

  lemma OneAsk()
    ensures var b := Step(Empty(Plain(false)), Submit(Ask(1), 0));
            Sound(b) && Queued(b, [Ask(1)], [1]) && b.core.locations.Keys == {1} && Sum(Total, [Ask(1)]) == 5
  {
    hide Step, Sound;
    assert Sound(Empty(Plain(false))) by { EmptyInv(Plain(false)); }
    StepSound(Empty(Plain(false)), Submit(Ask(1), 0));
    FirstRests(false, Ask(1));
    SumCons(Total, Ask(1), []);
    assert [Ask(1)] + [] == [Ask(1)];
  }

  lemma ThreeAsks()
    ensures var b := Run(Empty(Plain(false)), [Submit(Ask(1), 0), Submit(Ask(2), 0), Submit(Ask(3), 0)]);
            Sound(b) && Queued(b, [Ask(1), Ask(2), Ask(3)], [1, 2, 3])
  {
    hide Step, Sound, Good, CoreOk, Queued, Ask, Sum;
    var cmds := [Submit(Ask(1), 0), Submit(Ask(2), 0), Submit(Ask(3), 0)];
    var b0 := Empty(Plain(false));
    var b1 := Step(b0, cmds[0]);
    var b2 := Step(b1, cmds[1]);
    OneAsk();
    AskFollows(b1, [Ask(1)], [1], 2);
    assert [Ask(1)] + [Ask(2)] == [Ask(1), Ask(2)] && [1] + [2] == [1, 2];
    AskFollows(b2, [Ask(1), Ask(2)], [1, 2], 3);
    assert [Ask(1), Ask(2)] + [Ask(3)] == [Ask(1), Ask(2), Ask(3)] && [1, 2] + [3] == [1, 2, 3];
    RunOne(b0, [], cmds[0]);
    RunOne(b0, [cmds[0]], cmds[1]);
    RunOne(b0, [cmds[0], cmds[1]], cmds[2]);
    assert [] + [cmds[0]] == [cmds[0]] && [cmds[0]] + [cmds[1]] == [cmds[0], cmds[1]] && [cmds[0], cmds[1]] + [cmds[2]] == cmds;
  }

  lemma AskFollows(b: Book, orders: seq<Order>, ids: seq<Id>, id: Id)
    requires Sound(b) && Queued(b, orders, ids)
    requires id !in b.core.locations && Sum(Total, orders) + 5 <= U64_MAX
    ensures var x := Step(b, Submit(Ask(id), 0));
            && Sound(x) && Queued(x, orders + [Ask(id)], ids + [id])
            && x.core.locations.Keys == b.core.locations.Keys + {id}
            && Sum(Total, orders + [Ask(id)]) == Sum(Total, orders) + 5
  {
    hide Step, Sound, Good, Queued;
    UnfoldSound(b);
    StepSound(b, Submit(Ask(id), 0));
    AskJoins(b, orders, ids, id);
  }

  lemma UnfoldSound(b: Book)
    requires Sound(b)
    ensures Good(b.core, b.registry) && CoreOk(b.core) && Tracks(b.users, b.registry)
  {
  }

  /** The oldest of three asks is filled. */
  lemma OldestFills(c: Core, tk: Taker)
    requires c.cfg == Plain(false) && c.asks == [Level(100, [Ask(1), Ask(2), Ask(3)])]
    requires tk == Taker(9, 9, Buy, None, false)
    ensures var es := Take(c, tk, BaseQty(5)).effects;
            |es| == 3 && es[0].LevelChanged? && es[1] == Filled(Ask(1).tag) && es[2].Traded?
  {
    hide VisitLevel, Match;
    OldestVisited(c.cfg, tk, c.asks[0]);
    var v := VisitLevel(c.cfg, tk, c.asks[0], 5);
    assert MatchWalk(c, tk, BaseQty(5)) == Walk([v], BaseQty(0), false, false);
    OneVisitMatch(c, tk, 5, v, 0);
  }

  lemma OldestVisited(cfg: Config, tk: Taker, level: Level)
    requires cfg == Plain(false) && level == Level(100, [Ask(1), Ask(2), Ask(3)]) && tk == Taker(9, 9, Buy, None, false)
    ensures var v := VisitLevel(cfg, tk, level, 5);
            && v.fills == [Fill(1, 1, 5)] && v.filled == [Ask(1)] && v.executed == 5 && !v.halts
            && |v.effects| == 1 && v.effects[0].LevelChanged?
  {
    hide MatchLevel;
    PlainHead(5, level.orders, false);
    NothingAsked(level.orders[1..]);
  }

  lemma NothingAsked(orders: seq<Order>)
    ensures MatchLevel(0, orders, false) == LevelMatch(orders, [], [], 0)
  {
  }

  /** Three asks of one user, the oldest filled: a cancellation by user then takes the
      youngest before the one admitted ahead of it. */
  lemma FillReorders() returns (cfg: Config, cmds: seq<Command>)
    ensures forall cmd <- cmds :: Wellformed(cfg, cmd)
    ensures var b := Run(Empty(cfg), cmds);
            && ListOf(b.users, 1) == [3, 2]
            && Ids(CancelEach(b.core, ListOf(b.users, 1)).cancelled) == [3, 2]
  {
    hide Run, Step, Sound, Take, CancelEach;
    var tk := Taker(9, 9, Buy, None, false);
    var asks := [Submit(Ask(1), 0), Submit(Ask(2), 0), Submit(Ask(3), 0)];
    cfg, cmds := Plain(false), asks + [Execute(tk, BaseQty(5))];
    ThreeAsks();
    var b := Run(Empty(cfg), asks);
    var x := Step(b, Execute(tk, BaseQty(5)));
    RunOne(Empty(cfg), asks, Execute(tk, BaseQty(5)));
    OldestFills(b.core, tk);
    FilledSwapped(b, tk);
    StepSound(b, Execute(tk, BaseQty(5)));
    CancelsInListOrder(x, 1);
  }

  /** Cancellation by user takes the orders as the user's list names them. */
  lemma CancelsInListOrder(b: Book, user: User)
    requires Sound(b)
    ensures Ids(CancelEach(b.core, ListOf(b.users, user)).cancelled) == ListOf(b.users, user)
  {
    hide Good, Tracks, GetOrder, CancelEach, Sound;
    UnfoldSound(b);
    var ids := ListOf(b.users, user);
    CancelByUserExact(b.core, b.registry, b.users, user, Sell);
    var cancelled := CancelEach(b.core, ids).cancelled;
    forall i | 0 <= i < |ids| ensures cancelled[i].tag.id == ids[i] {
      FoundFits(b.core, b.registry, ids[i]);
    }
    assert Ids(cancelled) == ids;
  }

  lemma FilledSwapped(b: Book, tk: Taker)
    requires b.users == map[1 := [1, 2, 3]]
    requires var es := Take(b.core, tk, BaseQty(5)).effects;
             |es| == 3 && es[0].LevelChanged? && es[1] == Filled(Ask(1).tag) && es[2].Traded?
    ensures ListOf(Step(b, Execute(tk, BaseQty(5))).users, 1) == [3, 2]
  {
    hide Take;
    var es := Take(b.core, tk, BaseQty(5)).effects;
    assert es == [es[0], es[1]] + [es[2]] && [es[2]] == [es[2]] + [];
    FoldAppend(TrackStep, b.users, [es[0], es[1]], [es[2]]);
    FoldPair(TrackStep, b.users, es[0], es[1]);
    FoldCons(TrackStep, Track(b.users, [es[0], es[1]]), es[2], []);
    assert SwapRemove([1, 2, 3], 0) == [3, 2];
  }

  lemma {:induction false} RunOne(b: Book, cmds: seq<Command>, cmd: Command)
    ensures Run(b, cmds + [cmd]) == Step(Run(b, cmds), cmd)
    decreases |cmds|
  {
    hide Step;
    if cmds == [] {
      assert [] + [cmd] == [cmd] && [cmd][1..] == [];
      assert Run(Step(b, cmd), []) == Step(b, cmd);
    } else {
      assert (cmds + [cmd])[0] == cmds[0] && (cmds + [cmd])[1..] == cmds[1..] + [cmd];
      RunOne(Step(b, cmds[0]), cmds[1..], cmd);
    }
  }

  // ---- A buyer that takes the only ask ----

  lemma AskVisited(cfg: Config, tk: Taker, level: Level, q: nat)
    requires cfg == Plain(false) && level == Level(100, [Ask(1)]) && tk.side == Buy && q > 5
    ensures VisitLevel(cfg, tk, level, q) == Visit(q, [], [Fill(1, 1, 5)], [Ask(1)], [], 5, [LevelChanged(Sell, 100, 0)], false)
  {
    hide MatchLevel;
    PlainHead(q, [Ask(1)], false);
    assert [Ask(1)][1..] == [];
    EmptyQueue(q - 5, false);
  }

  /** A buyer of more takes the only ask. */
  lemma AskTaken(c: Core, tk: Taker, q: nat)
    requires c.cfg == Plain(false) && c.asks == [Level(100, [Ask(1)])] && q > 5
    requires tk.side == Buy && !tk.postOnly && Within(Buy, tk.limit, 100)
    ensures var m := Match(c, tk, BaseQty(q));
            && m.reply.Ok? && !m.reply.value.rejected && !m.reply.value.stpCancelled
            && m.reply.value.result.remaining == q - 5
            && m.effects == [LevelChanged(Sell, 100, 0), Filled(Ask(1).tag)]
            && m.core == c.(asks := [], locations := Locate(c.locations, m.effects))
  {
    hide VisitLevel, Match;
    AskVisited(c.cfg, tk, c.asks[0], q);
    var v := VisitLevel(c.cfg, tk, c.asks[0], q);
    assert c.asks[1..] == [];
    assert Sweep(c.cfg, tk, [], BaseQty(q - 5)) == Walk([], BaseQty(q - 5), false, false);
    assert MatchWalk(c, tk, BaseQty(q)) == Walk([v], BaseQty(q - 5), false, false);
    OneVisitMatch(c, tk, q, v, q - 5);
    assert Prune([Level(100, [])]) == [] by { assert [Level(100, [])][1..] == [] && Prune([]) == []; }
    assert [Level(100, [])] + [] == [Level(100, [])];
    assert FilledEffects([Ask(1)]) == [Filled(Ask(1).tag)];
  }
}
