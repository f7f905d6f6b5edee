/** Safety of the submit gate over every interleaving. */
module GateLaws {
  import opened Types
  import opened Orders
  import opened Stp
  import opened Effects
  import opened Matching
  import opened VisitLaws
  import opened SweepLaws
  import opened BudgetLaws
  import opened Engine
  import opened SideLaws
  import opened Gate

  // ---- The invariant ----

  /** The cursor stands behind the first `k` levels. */
  predicate Behind(levels: seq<Level>, cursor: Option<Price>, k: nat) {
    k <= |levels| && cursor == if k == 0 then None else Some(levels[k - 1].price)
  }

  /** What the thread that holds the write side knows. */
  predicate PhaseOk(c: Core, p: Phase) {
    match p
    case Reading => true
    case Finished(o, n) => n == 0 || n == TotalQuantity(o)
    case Checking(o, cursor, needed, found, start, walked) =>
      && c == start
      && Behind(Facing(start, o), cursor, walked)
      && found + FokWalk(c.cfg, Probe(o), Facing(start, o)[walked..], needed)
         == FokWalk(c.cfg, Probe(o), Facing(start, o), TotalQuantity(o))
    case Sweeping(o, cursor, stop, done, start) =>
      var levels := Facing(start, o);
      && Behind(levels, cursor, |done|)
      && c == WithSide(start, o.tag.side.Opposite(), After(levels, done))
      && TotalQuantity(o) <= FokWalk(c.cfg, Probe(o), levels, TotalQuantity(o))
      && Sweep(c.cfg, TakerOf(o), levels, BaseQty(TotalQuantity(o))).visits
         == done + Sweep(c.cfg, TakerOf(o), levels[|done|..], stop).visits
  }

  predicate Busy(p: Phase) {
    p.Checking? || p.Sweeping?
  }

  ghost predicate Safe(s: State) {
    && Shelved(s.core)
    && (s.writer.Some? ==> s.readers == {})
    && (forall t <- s.threads :: s.threads[t].Reading? ==> t in s.readers)
    && (forall t <- s.threads :: Busy(s.threads[t]) ==> s.writer == Some(t))
    && (forall t <- s.threads :: PhaseOk(s.core, s.threads[t]))
  }

  // ---- Reading behind the cursor ----

  lemma {:induction false} BeyondDrops(side: Side, levels: seq<Level>, cursor: Option<Price>, k: nat)
    requires BestFirst(side, levels) && Behind(levels, cursor, k)
    ensures Beyond(side, levels, cursor) == levels[k..]
  {
    if k > 0 {
      var price := levels[k - 1].price;
      if k > 1 {
        BeyondDrops(side, levels[1..], cursor, k - 1);
      } else {
        assert levels[1..] == [] || Better(side, price, levels[1].price);
      }
    }
  }

  lemma {:induction false} OverwriteAt(side: Side, levels: seq<Level>, k: nat, orders: seq<Order>)
    requires BestFirst(side, levels) && k < |levels|
    ensures Overwrite(levels, levels[k].price, orders) == levels[k := Level(levels[k].price, orders)]
  {
    var here := Level(levels[k].price, orders);
    if k == 0 {
      assert [here] + levels[1..] == levels[0 := here];
    } else {
      assert levels[0].price != levels[k].price && levels[1..][k - 1] == levels[k];
      OverwriteAt(side, levels[1..], k - 1, orders);
      assert [levels[0]] + levels[1..][k - 1 := here] == levels[k := here];
    }
  }

  lemma AfterOneMore(side: Side, levels: seq<Level>, done: seq<Visit>, v: Visit)
    requires BestFirst(side, levels) && |done| < |levels|
    ensures BestFirst(side, After(levels, done))
    ensures Overwrite(After(levels, done), levels[|done|].price, v.orders) == After(levels, done + [v])
  {
    var out := After(levels, done);
    OverwriteAt(side, out, |done|, v.orders);
    var more := After(levels, done + [v]);
    forall i | 0 <= i < |levels| ensures out[|done| := Level(levels[|done|].price, v.orders)][i] == more[i] {
      if i < |done| {
        assert (done + [v])[i] == done[i];
      }
    }
  }

  lemma AheadUntouched(side: Side, levels: seq<Level>, done: seq<Visit>, cursor: Option<Price>)
    requires BestFirst(side, levels) && Behind(levels, cursor, |done|)
    ensures Beyond(side, After(levels, done), cursor) == levels[|done|..]
  {
    var out := After(levels, done);
    BeyondDrops(side, out, cursor, |done|);
    assert out[|done|..] == levels[|done|..];
  }

  // ---- Single levels compose to the walks ----

  lemma LookUnfolds(cfg: Config, tk: Taker, levels: seq<Level>, needed: nat)
    ensures levels == [] ==> FokWalk(cfg, tk, levels, needed) == 0
    ensures levels != [] ==>
              var g := LookAt(cfg, tk, levels[0], needed);
              && g.depth <= needed
              && FokWalk(cfg, tk, levels, needed) == g.depth + if g.more then FokWalk(cfg, tk, levels[1..], needed - g.depth) else 0
  {
    hide FokWalk, Decide, Reach;
    if levels == [] {
      FokNothing(cfg, tk, needed);
    } else {
      FokStep(cfg, tk, levels, needed);
      RoundLotLaws(needed, LotSize(cfg));
    }
  }

  lemma StrikeUnfolds(cfg: Config, tk: Taker, levels: seq<Level>, stop: StopCondition)
    ensures levels == [] ==> Sweep(cfg, tk, levels, stop).visits == []
    ensures levels != [] ==>
              Sweep(cfg, tk, levels, stop).visits ==
              match StrikeAt(cfg, tk, levels[0], stop)
              case Quit => []
              case Hit(v, next, more) => [v] + if more then Sweep(cfg, tk, levels[1..], next).visits else []
  {
    hide VisitLevel, Consume, LevelCap;
  }

  /** A complete sweep after a successful dry run of the same levels fills everything, or
      nothing when the order only posts. */
  lemma AllOrNothing(cfg: Config, o: Order, levels: seq<Level>)
    requires TotalQuantity(o) <= FokWalk(cfg, Probe(o), levels, TotalQuantity(o))
    ensures var n := TotalExecuted(Sweep(cfg, TakerOf(o), levels, BaseQty(TotalQuantity(o))));
            n == 0 || n == TotalQuantity(o)
  {
    hide FokWalk, Sweep;
    if TakerOf(o).postOnly {
      ProbesNothing(cfg, TakerOf(o), levels, BaseQty(TotalQuantity(o)));
    } else {
      assert Probe(o) == TakerOf(o);
      FokExact(cfg, TakerOf(o), levels, TotalQuantity(o));
      BaseAccounts(cfg, TakerOf(o), levels, TotalQuantity(o));
    }
  }

  // ---- Every step keeps the invariant ----

  lemma WriterAlone(s: State, t: Tid)
    requires Safe(s) && t in s.threads && Busy(s.threads[t])
    ensures s.writer == Some(t) && s.readers == {}
    ensures forall u <- s.threads :: u != t ==> s.threads[u].Finished?
  {
  }

  /** The writer's own step: the others are finished and stay so. */
  lemma WriterMoves(s: State, t: Tid, c: Core, p: Phase)
    requires Safe(s) && t in s.threads && Busy(s.threads[t])
    requires Shelved(c) && PhaseOk(c, p) && !p.Reading?
    ensures Busy(p) ==> Safe(SetPhase(s.(core := c), t, p))
    ensures p.Finished? ==> Safe(SetPhase(Release(s.(core := c), t), t, p))
  {
    hide Shelved, FokWalk, Sweep;
    WriterAlone(s, t);
  }

  lemma LookKeeps(s: State, t: Tid)
    requires Safe(s) && t in s.threads && s.threads[t].Checking?
    ensures Safe(LookStep(s, t, s.threads[t]))
  {
    hide FokWalk, Sweep, LookAt, Safe;
    assert Shelved(s.core) && PhaseOk(s.core, s.threads[t]) by { SafeFacts(s, t); }
    var p := s.threads[t];
    var o, side, levels := p.order, p.order.tag.side.Opposite(), Facing(s.core, p.order);
    BeyondDrops(side, levels, p.cursor, p.walked);
    var ahead := levels[p.walked..];
    LookUnfolds(s.core.cfg, Probe(o), ahead, p.needed);
    var next := LookStep(s, t, p).threads[t];
    if next.Checking? {
      assert ahead[1..] == levels[p.walked + 1..];
    } else if next.Sweeping? {
      assert levels[0..] == levels;
    }
    WriterMoves(s, t, s.core, next);
  }

  lemma SafeFacts(s: State, t: Tid)
    requires Safe(s) && t in s.threads
    ensures Shelved(s.core) && PhaseOk(s.core, s.threads[t])
  {
    hide FokWalk, Sweep;
  }

  /** What the sweeping thread reads next, and how the rest of its walk unfolds. */
  lemma StrikeReads(c: Core, p: Phase)
    requires p.Sweeping? && Shelved(c) && PhaseOk(c, p)
    ensures var o, side, levels, k := p.order, p.order.tag.side.Opposite(), Facing(p.start, p.order), |p.done|;
            && k <= |levels|
            && BestFirst(side, levels)
            && Facing(c, o) == After(levels, p.done)
            && Beyond(side, Facing(c, o), p.cursor) == levels[k..]
  {
    hide FokWalk, Sweep;
    StartSorted(c, p);
    AheadUntouched(p.order.tag.side.Opposite(), Facing(p.start, p.order), p.done, p.cursor);
  }

  lemma StrikeGoesOn(c: Core, p: Phase, v: Visit, stop: StopCondition)
    requires p.Sweeping? && PhaseOk(c, p)
    requires var levels, k := Facing(p.start, p.order), |p.done|;
             && k < |levels|
             && Sweep(c.cfg, TakerOf(p.order), levels[k..], p.stop).visits
                == [v] + Sweep(c.cfg, TakerOf(p.order), levels[k..][1..], stop).visits
    ensures var levels, k := Facing(p.start, p.order), |p.done|;
            PhaseOk(WithSide(c, p.order.tag.side.Opposite(), After(levels, p.done + [v])),
                    p.(cursor := Some(levels[k].price), stop := stop, done := p.done + [v]))
  {
    hide FokWalk, Sweep, After;
    var levels, k := Facing(p.start, p.order), |p.done|;
    var rest := Sweep(c.cfg, TakerOf(p.order), levels[k + 1..], stop).visits;
    assert levels[k..][1..] == levels[k + 1..];
    assert p.done + ([v] + rest) == p.done + [v] + rest;
  }

  lemma StrikeEnds(c: Core, p: Phase, done: seq<Visit>)
    requires p.Sweeping? && PhaseOk(c, p)
    requires p.done + Sweep(c.cfg, TakerOf(p.order), Facing(p.start, p.order)[|p.done|..], p.stop).visits == done
    ensures Sweep(c.cfg, TakerOf(p.order), Facing(p.start, p.order), BaseQty(TotalQuantity(p.order))).visits == done
    ensures |done| <= |Facing(p.start, p.order)|
  {
    hide FokWalk;
  }

  /** A strike either goes on with one more visit or ends with the visits of the whole sweep. */
  lemma StrikeOutcome(s: State, t: Tid) returns (done: seq<Visit>)
    requires t in s.threads && s.threads[t].Sweeping?
    requires Shelved(s.core) && PhaseOk(s.core, s.threads[t])
    ensures var p := s.threads[t];
            var o, side, levels := p.order, p.order.tag.side.Opposite(), Facing(p.start, p.order);
            var s' := StrikeStep(s, t, p);
            && |done| <= |levels|
            && t in s'.threads
            && if s'.threads[t].Finished? then
                 && s' == Conclude(s, t, p, After(levels, done), done)
                 && Sweep(s.core.cfg, TakerOf(o), levels, BaseQty(TotalQuantity(o))).visits == done
               else
                 && s' == SetPhase(s.(core := WithSide(s.core, side, After(levels, done))), t, s'.threads[t])
                 && PhaseOk(s'.core, s'.threads[t])
                 && s'.threads[t].Sweeping?
                 && BestFirst(side, After(levels, done))
  {
    hide FokWalk, Sweep, StrikeAt, BestFirst, Settle, WalkEffects, FilledEffects, AllFilled, PhaseOk, After,
      Shelved;
    var p := s.threads[t];
    var o, side, levels, k := p.order, p.order.tag.side.Opposite(), Facing(p.start, p.order), |p.done|;
    StrikeReads(s.core, p);
    var ahead := levels[k..];
    StrikeUnfolds(s.core.cfg, TakerOf(o), ahead, p.stop);
    if ahead == [] || StrikeAt(s.core.cfg, TakerOf(o), ahead[0], p.stop).Quit? {
      done := p.done;
      StrikeEnds(s.core, p, done);
    } else {
      var blow := StrikeAt(s.core.cfg, TakerOf(o), ahead[0], p.stop);
      done := p.done + [blow.visit];
      AfterOneMore(side, levels, p.done, blow.visit);
      AfterSorted(side, levels, done);
      if blow.more {
        StrikeGoesOn(s.core, p, blow.visit, blow.stop);
      } else {
        StrikeEnds(s.core, p, done);
      }
    }
  }

  lemma StrikeKeeps(s: State, t: Tid)
    requires Safe(s) && t in s.threads && s.threads[t].Sweeping?
    ensures Safe(StrikeStep(s, t, s.threads[t]))
  {
    hide FokWalk, Sweep, StrikeStep, Safe, BestFirst, Conclude, PhaseOk;
    SafeFacts(s, t);
    var p, s' := s.threads[t], StrikeStep(s, t, s.threads[t]);
    var done := StrikeOutcome(s, t);
    if s'.threads[t].Finished? {
      FinishKeeps(s, t, done);
    } else {
      WriterMoves(s, t, s'.core, s'.threads[t]);
    }
  }

  lemma StartSorted(c: Core, p: Phase)
    requires p.Sweeping? && Shelved(c) && PhaseOk(c, p)
    ensures BestFirst(p.order.tag.side.Opposite(), Facing(p.start, p.order))
  {
    hide FokWalk, Sweep;
    var levels := Facing(p.start, p.order);
    assert After(levels, p.done) == Facing(c, p.order);
  }

  lemma AfterSorted(side: Side, levels: seq<Level>, done: seq<Visit>)
    requires BestFirst(side, levels) && |done| <= |levels|
    ensures BestFirst(side, After(levels, done))
  {
  }

  lemma FinishKeeps(s: State, t: Tid, done: seq<Visit>)
    requires Safe(s) && t in s.threads && s.threads[t].Sweeping?
    requires var p := s.threads[t];
             var o, levels := p.order, Facing(p.start, p.order);
             && |done| <= |levels|
             && Sweep(s.core.cfg, TakerOf(o), levels, BaseQty(TotalQuantity(o))).visits == done
    ensures var p := s.threads[t];
            Safe(Conclude(s, t, p, After(Facing(p.start, p.order), done), done))
  {
    hide FokWalk, Sweep, Safe, BestFirst, Locate, WalkEffects, FilledEffects, AllFilled;
    assert Shelved(s.core) && PhaseOk(s.core, s.threads[t]) by { SafeFacts(s, t); }
    var p := s.threads[t];
    var o, side, levels := p.order, p.order.tag.side.Opposite(), Facing(p.start, p.order);
    AllOrNothing(s.core.cfg, o, levels);
    StartSorted(s.core, p);
    AfterSorted(side, levels, done);
    PruneSorted(side, After(levels, done));
    var s' := Conclude(s, t, p, After(levels, done), done);
    WriterMoves(s, t, s'.core, s'.threads[t]);
  }

  lemma ReaderKeeps(s: State, a: ThreadStep)
    requires Safe(s) && (a.Enter? || a.Mutate? || a.Leave?)
    ensures Safe(Do(true, s, a))
  {
    hide FokWalk, Sweep;
  }

  lemma SubmitKeeps(s: State, a: ThreadStep)
    requires Safe(s) && (a.Submit? || a.Refuse?)
    ensures Safe(Do(true, s, a))
  {
    hide FokWalk, Sweep, BestFirst;
    if a.Submit? && Do(true, s, a) != s {
      assert Facing(s.core, a.order)[0..] == Facing(s.core, a.order);
    }
  }

  lemma {:induction false} ExecuteKeeps(s: State, steps: seq<ThreadStep>)
    requires Safe(s)
    ensures Safe(Execute(true, s, steps))
    decreases |steps|
  {
    hide Safe, Do;
    if steps != [] {
      var a := steps[0];
      DoKeeps(s, a);
      ExecuteKeeps(Do(true, s, a), steps[1..]);
    }
  }

  lemma DoKeeps(s: State, a: ThreadStep)
    requires Safe(s)
    ensures Safe(Do(true, s, a))
  {
    hide Safe, LookStep, StrikeStep;
    match a
    case Look(t) => if t in s.threads && s.threads[t].Checking? { LookKeeps(s, t); }
    case Strike(t) => if t in s.threads && s.threads[t].Sweeping? { StrikeKeeps(s, t); }
    case Submit(_, _) => SubmitKeeps(s, a);
    case Refuse(_) => SubmitKeeps(s, a);
    case _ => ReaderKeeps(s, a);
  }

  /** In every interleaving a fill-or-kill order executes its whole quantity or nothing. */
  lemma FillOrKillAtomic(c: Core, steps: seq<ThreadStep>, t: Tid)
    requires Shelved(c)
    ensures var s := Execute(true, Initial(c), steps);
            t in s.threads && s.threads[t].Finished? ==>
              s.threads[t].executed == 0 || s.threads[t].executed == TotalQuantity(s.threads[t].order)
  {
    ExecuteKeeps(Initial(c), steps);
  }

  /** The level-by-level sweep of a fill-or-kill order ends in the state that the whole match
      would reach from the book it started on: no other step came between. */
  lemma SweepRefinesMatch(s: State, t: Tid)
    requires Safe(s) && t in s.threads && s.threads[t].Sweeping?
    requires StrikeStep(s, t, s.threads[t]).threads[t].Finished?
    ensures var p := s.threads[t];
            StrikeStep(s, t, p).core == Match(p.start, TakerOf(p.order), BaseQty(TotalQuantity(p.order))).core
  {
    hide FokWalk, Sweep, StrikeStep, Safe, BestFirst, Locate, FilledEffects, AllFilled, WalkEffects;
    SafeFacts(s, t);
    var done := StrikeOutcome(s, t);
  }
}
