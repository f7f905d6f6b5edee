/** Which commands leave the book as it was: the dry run of a sweep that moves nothing, and for
    every command that fails the exact condition under which it moved nothing. */
module FailureLaws {
  import opened Types
  import opened Seqs
  import opened Orders
  import opened Levels
  import opened Stp
  import opened Effects
  import opened Matching
  import opened VisitLaws
  import opened SweepLaws
  import opened Engine
  import opened SideLaws
  import opened CoreLaws
  import opened OpLaws
  import opened Runs
  import opened ModifyLaws

  // ---- A sweep that moves nothing ----

  /** The dry run: as long as the walk has a lot to ask for, nothing is in its reach and no
      order of its own is to be cancelled; an own order that stops it leaves the rest alone. */
  predicate Undisturbed(cfg: Config, tk: Taker, levels: seq<Level>, stop: StopCondition)
    decreases |levels|
  {
    || tk.postOnly
    || levels == []
    || !Within(tk.side, tk.limit, levels[0].price)
    || LevelCap(stop, levels[0].price, LotSize(cfg)) == 0
    || (&& Reach(cfg, tk.user, levels[0].orders) == 0
        && match Decide(levels[0].orders, tk.user, cfg.stp)
           case NoConflict => Undisturbed(cfg, tk, levels[1..], stop)
           case StopTaker(_) => true
           case RemoveMakers => false
           case StopBoth(_, _) => false)
  }

  lemma {:induction false} RemovalSeen(kept: seq<Order>, todo: seq<Order>, p: Order -> bool, side: Side, price: Price)
    ensures var es := Removal(kept, todo, p, side, price);
            (es != [] ==> es[0].LevelChanged?) && ((exists o :: o in todo && p(o)) ==> es != [])
    decreases |todo|
  {
    if todo != [] && !p(todo[0]) {
      RemovalSeen(kept + [todo[0]], todo[1..], p, side, price);
    }
  }

  /** A visit moves nothing exactly when nothing is in reach and no own maker is cancelled;
      otherwise it announces its level first. */
  lemma StillVisit(cfg: Config, tk: Taker, level: Level, cap: nat)
    requires cap > 0
    ensures var v, d := VisitLevel(cfg, tk, level, cap), Decide(level.orders, tk.user, cfg.stp);
            && (v.effects == [] <==> Reach(cfg, tk.user, level.orders) == 0 && (d.NoConflict? || d.StopTaker?))
            && (v.effects != [] ==> v.effects[0].LevelChanged?)
            && (v.effects == [] ==> v.orders == level.orders && v.filled == [] && v.fills == [] && v.executed == 0)
  {
    hide MatchLevel;
    var side, price, orders, back := tk.side.Opposite(), level.price, level.orders, cfg.requeueBack;
    VisitExecutes(cfg, tk, level, cap);
    match Decide(orders, tk.user, cfg.stp)
    case NoConflict => MatchVisitLaws(cap, orders, back, side, price, false);
    case StopTaker(safe) => MatchVisitLaws(Min(cap, safe), orders, back, side, price, true);
    case RemoveMakers =>
      var k := FirstOwned(orders, tk.user);
      assert orders[k] in orders && Mine(tk.user)(orders[k]);
      RemovalSeen([], orders, Mine(tk.user), side, price);
    case StopBoth(safe, maker) =>
      var k := FirstOwned(orders, tk.user);
      assert orders[k] in orders && HasId(maker)(orders[k]);
      MatchVisitLaws(Min(cap, safe), orders, back, side, price, true);
      RemovalSeen([], MatchLevel(Min(cap, safe), orders, back).orders, HasId(maker), side, price);
  }

  lemma SameStop(stop: StopCondition, price: Price, lot: nat)
    ensures Consume(stop, 0, price) == stop
    ensures LevelCap(stop, price, lot) > 0 ==> !Done(stop)
  {
  }

  /** The dry run is right: a sweep has no effects if and only if it is undisturbed. Then it
      leaves every level and fills nobody; otherwise a level event comes first. */
  lemma {:induction false} UndisturbedExactly(cfg: Config, tk: Taker, levels: seq<Level>, stop: StopCondition)
    ensures var visits := Sweep(cfg, tk, levels, stop).visits;
            && (Undisturbed(cfg, tk, levels, stop) <==> WalkEffects(visits) == [])
            && (WalkEffects(visits) != [] ==> WalkEffects(visits)[0].LevelChanged?)
            && (WalkEffects(visits) == [] ==> After(levels, visits) == levels && AllFilled(visits) == [] && Trades(levels, visits) == [])
    decreases |levels|
  {
    hide Sweep, VisitLevel, LevelCap, LotSize, Reach, Decide, Within, Consume;
    SweepStep(cfg, tk, levels, stop);
    var w := Sweep(cfg, tk, levels, stop);
    if w.visits != [] {
      var v, next := w.visits[0], StopAfter(tk, stop, w.visits[0], levels[0].price);
      if tk.postOnly {
        UndisturbedExactly(cfg, tk, levels[1..], stop);
      } else {
        StillVisit(cfg, tk, levels[0], v.cap);
        VisitExecutes(cfg, tk, levels[0], v.cap);
        SameStop(stop, levels[0].price, LotSize(cfg));
        UndisturbedExactly(cfg, tk, levels[1..], next);
      }
      assert w.visits == [v] + w.visits[1..];
      FirstVisit(levels, v, w.visits[1..]);
      assert After(levels[1..], []) == levels[1..];
    }
  }

  lemma FirstVisit(levels: seq<Level>, v: Visit, rest: seq<Visit>)
    requires |rest| < |levels|
    ensures var visits := [v] + rest;
            && WalkEffects(visits) == v.effects + WalkEffects(rest)
            && AllFilled(visits) == v.filled + AllFilled(rest)
            && (v.fills == [] ==> Trades(levels, visits) == Trades(levels[1..], rest))
            && (v.orders == levels[0].orders && After(levels[1..], rest) == levels[1..] ==> After(levels, visits) == levels)
  {
    assert ([v] + rest)[1..] == rest;
    assert v.fills == [] ==> Priced(levels[0].price, v.fills) == [];
    assert levels == [levels[0]] + levels[1..];
  }

  // ---- A match, and what it does to the whole book ----

  /** The sweep of a match on this book would move nothing. */
  predicate StillMatch(c: Core, tk: Taker, stop: StopCondition) {
    Undisturbed(c.cfg, tk, SideOf(c, tk.side.Opposite()), stop)
  }

  lemma MatchSettles(c: Core, tk: Taker, stop: StopCondition)
    ensures var side, w, m := tk.side.Opposite(), MatchWalk(c, tk, stop), Match(c, tk, stop);
            && m.core == Settle(c, side, Prune(After(SideOf(c, side), w.visits)), MatchEffects(w))
            && m.effects == MatchEffects(w)
            && (m.reply.Ok? && Trades(SideOf(c, side), w.visits) == [] ==> m.reply.value.result.trades == [])
  {
    hide Sweep;
  }

  lemma PruneNone(side: Side, levels: seq<Level>)
    requires SideOk(side, levels)
    ensures Prune(levels) == levels
  {
    assert forall l <- levels :: LevelOk(side, l);
    FilterAll(Occupied, levels);
  }

  lemma MatchStillExactly(c: Core, tk: Taker, stop: StopCondition)
    requires CoreOk(c)
    ensures var m := Match(c, tk, stop);
            if StillMatch(c, tk, stop) then m.core == c && m.effects == [] && (m.reply.Ok? ==> m.reply.value.result.trades == [])
            else m.effects != [] && m.effects[0].LevelChanged?
  {
    hide Sweep, Match, Prune, Undisturbed;
    var side := tk.side.Opposite();
    var levels, w := SideOf(c, side), MatchWalk(c, tk, stop);
    UndisturbedExactly(c.cfg, tk, levels, stop);
    MatchSettles(c, tk, stop);
    if StillMatch(c, tk, stop) {
      PruneNone(side, levels);
      assert FilledEffects([]) == [];
      assert Locate(c.locations, []) == c.locations;
    }
  }

  lemma {:induction false} FeedGrows(feed: Feed, es: seq<Effect>)
    ensures |Emit(feed, es).events| >= |feed.events|
    decreases |es|
  {
    if es != [] {
      FeedGrows(EmitStep(feed, es[0]), es[1..]);
    }
  }

  /** Effects that begin with a level event are seen by its listener. */
  lemma Noticed(b: Book, c: Core, es: seq<Effect>)
    requires es != [] && es[0].LevelChanged?
    ensures Commit(b, c, es) != b
  {
    FeedGrows(EmitStep(b.feed, es[0]), es[1..]);
  }

  /** Without resting, a match keeps the book if and only if the dry run finds nothing. */
  lemma TakeKeepsExactly(b: Book, tk: Taker, stop: StopCondition)
    requires CoreOk(b.core)
    ensures var x := Take(b.core, tk, stop); Commit(b, x.core, x.effects) == b <==> StillMatch(b.core, tk, stop)
  {
    hide Match, StillMatch, Commit;
    var c, x := b.core, Take(b.core, tk, stop);
    MatchStillExactly(c, tk, stop);
    if StillMatch(c, tk, stop) {
      assert x.effects == [];
      CommitNone(b);
    } else {
      Noticed(b, x.core, x.effects);
    }
  }

  // ---- Submissions ----

  /** An admitted order that fails leaves the book as its sweep did. */
  lemma FailedAdd(c: Core, o: Order, now: nat)
    requires Refusal(c, o, now).None? && Add(c, o, now).reply.Err?
    ensures var a, m := Add(c, o, now), Match(c, TakerOf(o), BaseQty(TotalQuantity(o)));
            && a.core == m.core
            && (a.effects == m.effects || (m.reply.Ok? && a.effects == m.effects + Report(o.tag.id, m.reply.value.result.trades)))
  {
    hide Match, Refusal, Room, Residual;
    var m := Match(c, TakerOf(o), BaseQty(TotalQuantity(o)));
    if m.reply.Ok? {
      var all := m.effects + Report(o.tag.id, m.reply.value.result.trades);
      assert all + [] == all;
    }
  }

  lemma RefusedAdd(c: Core, o: Order, now: nat)
    requires Refusal(c, o, now).Some?
    ensures Add(c, o, now).core == c && Add(c, o, now).effects == []
  {
    hide Refusal, Match;
  }

  /** A submission that fails keeps the book if and only if it was refused before its sweep or
      the sweep moves nothing. */
  lemma FailedSubmit(b: Book, o: Order, now: nat)
    requires CoreOk(b.core) && Add(b.core, o, now).reply.Err?
    ensures Step(b, Submit(o, now)) == b <==> Steady(b.core, Submit(o, now))
  {
    hide Add, Match, Refusal, StillMatch, Commit;
    var c, a := b.core, Add(b.core, o, now);
    if Refusal(c, o, now).Some? {
      RefusedAdd(c, o, now);
      CommitNone(b);
    } else {
      FailedAdd(c, o, now);
      MatchStillExactly(c, TakerOf(o), BaseQty(TotalQuantity(o)));
      if StillMatch(c, TakerOf(o), BaseQty(TotalQuantity(o))) {
        assert a.effects == [];
        CommitNone(b);
      } else {
        Noticed(b, a.core, a.effects);
      }
    }
  }

  // ---- Updates ----

  lemma IdleResize(c: Core, prior: Order, o: Order, now: nat)
    requires Resize(c, prior, o, now).reply.Err?
    ensures Resize(c, prior, o, now).core == c && Resize(c, prior, o, now).effects == []
  {
    hide Validate;
  }

  /** The update reaches the cancel-and-add of a resting order. */
  predicate Modifies(c: Core, u: Update) {
    && !c.killed
    && (u.UpdatePrice? || u.UpdatePriceAndQuantity? || u.Replace?)
    && !(u.UpdatePrice? && u.id in c.locations && c.locations[u.id].price == u.price)
    && GetOrder(c, u.id).Some?
  }

  lemma UpdateFails(c: Core, u: Update, now: nat)
    requires UpdateOrder(c, u, now).reply.Err? && !Modifies(c, u)
    ensures UpdateOrder(c, u, now).core == c && UpdateOrder(c, u, now).effects == []
  {
    hide Modify, Resize, Cancel;
    if u.UpdateQuantity? && !c.killed && GetOrder(c, u.id).Some? {
      var o := GetOrder(c, u.id).value;
      IdleResize(c, o, Revised(o, u), now);
    }
  }

  lemma ModifyRuns(c: Core, u: Update, now: nat)
    requires Modifies(c, u)
    ensures UpdateOrder(c, u, now) == Modify(c, Revised(GetOrder(c, u.id).value, u), now)
  {
    hide Modify, Resize;
  }

  lemma RevisedId(o: Order, u: Update)
    ensures Revised(o, u).tag.id == o.tag.id
  {
  }

  /** A modify that fails keeps the book if and only if it fails its checks. */
  lemma FailedModify(c: Core, r: map<Id, Tag>, u: Update, now: nat)
    requires Good(c, r) && Sized(u) && Modifies(c, u) && UpdateOrder(c, u, now).reply.Err?
    ensures var x := UpdateOrder(c, u, now);
            if Steady(c, Change(u, now)) then x.core == c && x.effects == [] else x.core != c
  {
    hide Good, Modify, Cancel, Room, PassesChecks, UpdateOrder, Revised, GetOrder;
    var o := Revised(GetOrder(c, u.id).value, u);
    ModifyRuns(c, u, now);
    RevisedReplaces(c, r, u, now);
    FoundFits(c, r, u.id);
    ModifyAtomicExactly(c, r, o, now);
    assert o.tag.id == u.id by { RevisedId(GetOrder(c, u.id).value, u); }
  }

  // ---- Every command ----

  /** What can be seen of a command before it is made: a submission is refused or its sweep
      moves nothing, and a modify that passes its checks has room without the original. */
  predicate Steady(c: Core, cmd: Command) {
    match cmd
    case Submit(o, now) => Refusal(c, o, now).Some? || StillMatch(c, TakerOf(o), BaseQty(TotalQuantity(o)))
    case Execute(tk, stop) => StillMatch(c, tk, stop)
    case Market(id, user, side, stop) => c.killed || StillMatch(c, MarketTaker(id, user, side), stop)
    case Change(u, now) =>
      Modifies(c, u) ==>
        var o := Revised(GetOrder(c, u.id).value, u);
        PassesChecks(c, o, now) ==> Room(SideOf(Cancel(c, u.id).core, o.tag.side), o)
    case _ => true
  }

  /** A match that never rests, whatever its reply, keeps the book if and only if it is steady. */
  lemma TakerKeepsExactly(b: Book, cmd: Command)
    requires Sound(b) && (cmd.Execute? || cmd.Market?)
    ensures Step(b, cmd) == b <==> Steady(b.core, cmd)
  {
    hide Good, Take, Commit, StillMatch;
    assert CoreOk(b.core) by { UnfoldGood(b.core, b.registry); }
    CommitNone(b);
    match cmd
    case Execute(tk, stop) => TakeKeepsExactly(b, tk, stop);
    case Market(id, user, side, stop) => TakeKeepsExactly(b, MarketTaker(id, user, side), stop);
  }

  /** In every mode of self-trade prevention a command that fails keeps the book if and only if
      it was steady. */
  lemma FailureKeepsExactly(b: Book, cmd: Command)
    requires Sound(b) && Wellformed(b.core.cfg, cmd) && Failure(b.core, cmd).Some?
    ensures Step(b, cmd) == b <==> Steady(b.core, cmd)
  {
    hide Good, Add, UpdateOrder, Take, TakeMarket, Steady, Modifies, Commit;
    var c, r := b.core, b.registry;
    CommitNone(b);
    if cmd.Execute? || cmd.Market? {
      TakerKeepsExactly(b, cmd);
    } else if cmd.Submit? {
      assert CoreOk(c) by { UnfoldGood(c, r); }
      FailedSubmit(b, cmd.order, cmd.now);
    } else if cmd.Change? {
      if Modifies(c, cmd.update) {
        FailedModify(c, r, cmd.update, cmd.now);
        CommitCore(b, UpdateOrder(c, cmd.update, cmd.now).core, UpdateOrder(c, cmd.update, cmd.now).effects);
      } else {
        UpdateFails(c, cmd.update, cmd.now);
        UpdateSteady(c, cmd.update, cmd.now);
      }
    }
  }

  lemma UpdateSteady(c: Core, u: Update, now: nat)
    requires !Modifies(c, u)
    ensures Steady(c, Change(u, now))
  {
  }

  /** The kill switch: what it refuses fails and is steady. */
  lemma RefusedBySwitch(c: Core, cmd: Command)
    requires c.killed && (cmd.Submit? || cmd.Market? || (cmd.Change? && !cmd.update.Withdraw?))
    ensures Failure(c, cmd) == Some(KillSwitchActive) && Steady(c, cmd)
  {
  }
}
