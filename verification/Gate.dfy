/** The submit gate: a reader/writer protocol around the book. A fill-or-kill submission
    takes the write side and works level by level, first a dry run and then the sweep;
    every other mutation holds the read side and may change the book at each of its
    steps. The proof covers every interleaving of these steps. */
module Gate {
  import opened Types
  import opened Seqs
  import opened Orders
  import opened Stp
  import opened Matching
  import opened VisitLaws
  import opened SweepLaws
  import opened Engine

  type Tid = nat

  /** Where a thread stands. `cursor` is the price of the last level it read. `start` and
      `walked` record history: the book when the gate was taken and the levels passed. */
  datatype Phase =
    | Reading
    | Checking(order: Order, cursor: Option<Price>, needed: nat, found: nat, start: Core, walked: nat)
    | Sweeping(order: Order, cursor: Option<Price>, stop: StopCondition, done: seq<Visit>, start: Core)
    | Finished(order: Order, executed: nat)

  datatype State = State(core: Core, readers: set<Tid>, writer: Option<Tid>, threads: map<Tid, Phase>)

  datatype ThreadStep =
    | Enter(t: Tid)
    | Mutate(t: Tid, core: Core)
    | Leave(t: Tid)
    | Submit(t: Tid, order: Order)
    | Refuse(t: Tid)
    | Look(t: Tid)
    | Strike(t: Tid)

  // ---- One level of each walk ----

  /** The levels behind the cursor. */
  function Beyond(side: Side, levels: seq<Level>, cursor: Option<Price>): seq<Level> {
    if levels == [] || cursor.None? || Better(side, cursor.value, levels[0].price) then levels
    else Beyond(side, levels[1..], cursor)
  }

  function Probe(o: Order): Taker {
    TakerOf(o).(postOnly := false)
  }

  function Facing(c: Core, o: Order): seq<Level> {
    SideOf(c, o.tag.side.Opposite())
  }

  /** One level of the dry run: the depth found there, and whether the walk goes on. */
  datatype Glance = Glance(depth: nat, more: bool)

  function LookAt(cfg: Config, tk: Taker, level: Level, needed: nat): Glance {
    var cap := RoundLot(needed, LotSize(cfg));
    if !Within(tk.side, tk.limit, level.price) || cap == 0 then Glance(0, false)
    else
      var d := Decide(level.orders, tk.user, cfg.stp);
      Glance(Min(cap, Reach(cfg, tk.user, level.orders)), !d.StopTaker? && !d.StopBoth?)
  }

  /** One level of the sweep: nothing, or a visit after which the walk may go on. */
  datatype Blow = Quit | Hit(visit: Visit, stop: StopCondition, more: bool)

  function StrikeAt(cfg: Config, tk: Taker, level: Level, stop: StopCondition): Blow {
    var cap := LevelCap(stop, level.price, LotSize(cfg));
    if !Within(tk.side, tk.limit, level.price) || cap == 0 then Quit
    else if tk.postOnly then
      if Sum(Drawable, level.orders) > 0 then Quit else Hit(Untouched(level), stop, true)
    else
      var v := VisitLevel(cfg, tk, level, cap);
      var stop' := Consume(stop, v.executed, level.price);
      Hit(v, stop', !v.halts && !Matching.Done(stop'))
  }

  /** The side with the queue at `price` replaced; an emptied level stays until the end. */
  function Overwrite(levels: seq<Level>, price: Price, orders: seq<Order>): seq<Level> {
    if levels == [] then []
    else if levels[0].price == price then [Level(price, orders)] + levels[1..]
    else [levels[0]] + Overwrite(levels[1..], price, orders)
  }

  // ---- The protocol ----

  function SetPhase(s: State, t: Tid, p: Phase): State {
    s.(threads := s.threads[t := p])
  }

  function Release(s: State, t: Tid): State {
    s.(readers := s.readers - {t}, writer := if s.writer == Some(t) then None else s.writer)
  }

  predicate Idle(s: State, t: Tid) {
    t !in s.threads || s.threads[t].Finished?
  }

  predicate Shelved(c: Core) {
    BestFirst(Buy, c.bids) && BestFirst(Sell, c.asks)
  }

  /** A fill-or-kill submission takes the write side, or the read side when the gate is
      not used exclusively. */
  function Acquire(exclusive: bool, s: State, t: Tid): Option<State> {
    if exclusive then
      if s.writer.None? && s.readers == {} then Some(s.(writer := Some(t))) else None
    else if s.writer.None? then Some(s.(readers := s.readers + {t})) else None
  }

  function LookStep(s: State, t: Tid, p: Phase): State
    requires p.Checking?
  {
    var o, total := p.order, TotalQuantity(p.order);
    var ahead := Beyond(o.tag.side.Opposite(), Facing(s.core, o), p.cursor);
    var g := if ahead == [] then Glance(0, false) else LookAt(s.core.cfg, Probe(o), ahead[0], p.needed);
    var found := p.found + g.depth;
    if g.more then
      SetPhase(s, t, p.(cursor := Some(ahead[0].price), needed := p.needed - Min(g.depth, p.needed), found := found, walked := p.walked + 1))
    else if found < total then SetPhase(Release(s, t), t, Finished(o, 0))
    else SetPhase(s, t, Sweeping(o, None, BaseQty(total), [], p.start))
  }

  function Conclude(s: State, t: Tid, p: Phase, levels: seq<Level>, done: seq<Visit>): State
    requires p.Sweeping?
  {
    var o := p.order;
    var es := WalkEffects(done) + FilledEffects(AllFilled(done));
    SetPhase(Release(s.(core := Settle(s.core, o.tag.side.Opposite(), Prune(levels), es)), t), t, Finished(o, Sum(ExecutedAt, done)))
  }

  function StrikeStep(s: State, t: Tid, p: Phase): State
    requires p.Sweeping?
  {
    var o, side := p.order, p.order.tag.side.Opposite();
    var levels := Facing(s.core, o);
    var ahead := Beyond(side, levels, p.cursor);
    var blow := if ahead == [] then Quit else StrikeAt(s.core.cfg, TakerOf(o), ahead[0], p.stop);
    match blow
    case Quit => Conclude(s, t, p, levels, p.done)
    case Hit(v, stop, more) =>
      var levels' := Overwrite(levels, ahead[0].price, v.orders);
      if more then
        SetPhase(s.(core := WithSide(s.core, side, levels')), t, p.(cursor := Some(ahead[0].price), stop := stop, done := p.done + [v]))
      else Conclude(s, t, p, levels', p.done + [v])
  }

  /** One step of one thread; a step that is not enabled changes nothing. */
  function Do(exclusive: bool, s: State, a: ThreadStep): State {
    var t := a.t;
    match a
    case Enter(_) =>
      if Idle(s, t) && s.writer.None? then SetPhase(s.(readers := s.readers + {t}), t, Reading) else s
    case Mutate(_, c) =>
      if t in s.threads && s.threads[t].Reading? && Shelved(c) then s.(core := c) else s
    case Leave(_) =>
      if t in s.threads && s.threads[t].Reading? then
        var s' := Release(s, t); s'.(threads := s'.threads - {t})
      else s
    case Submit(_, o) =>
      if Idle(s, t) && o.tif.Fok? && Acquire(exclusive, s, t).Some? then
        SetPhase(Acquire(exclusive, s, t).value, t, Checking(o, None, TotalQuantity(o), 0, s.core, 0))
      else s
    case Refuse(_) =>
      if t in s.threads && s.threads[t].Checking? then SetPhase(Release(s, t), t, Finished(s.threads[t].order, 0)) else s
    case Look(_) =>
      if t in s.threads && s.threads[t].Checking? then LookStep(s, t, s.threads[t]) else s
    case Strike(_) =>
      if t in s.threads && s.threads[t].Sweeping? then StrikeStep(s, t, s.threads[t]) else s
  }

  function Execute(exclusive: bool, s: State, steps: seq<ThreadStep>): State
    decreases |steps|
  {
    if steps == [] then s else Execute(exclusive, Do(exclusive, s, steps[0]), steps[1..])
  }

  function Initial(c: Core): State {
    State(c, {}, None, map[])
  }
}
