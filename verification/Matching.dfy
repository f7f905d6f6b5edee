/** The unified sweep: one walk over price levels, best first, that serves base
    quantities and quote notionals, rounds to lots, prevents self-trades and probes for
    post-only takers. Levels are listed best first for the side they rest on. */
module Matching {
  import opened Types
  import opened Seqs
  import opened Orders
  import opened Levels
  import opened Stp
  import opened Effects

  datatype StopCondition = BaseQty(remaining: nat) | QuoteAmount(remaining: nat)

  datatype Taker = Taker(id: Id, user: User, side: Side, limit: Option<Price>, postOnly: bool)

  /** What happened at one walked level: `cap` is the quantity the budget allowed and
      `orders` the queue afterwards, before empty levels are removed. */
  datatype Visit = Visit(cap: nat, orders: seq<Order>, fills: seq<Fill>, filled: seq<Order>, cancelled: seq<Order>,
                         executed: nat, effects: seq<Effect>, halts: bool)

  datatype Walk = Walk(visits: seq<Visit>, stop: StopCondition, stpCancelled: bool, rejected: bool)

  function RoundLot(raw: nat, lot: nat): nat {
    if lot <= 1 then raw else raw - raw % lot
  }

  /** Base quantity the budget can pay for at `price`, in whole lots; zero stops the walk. */
  function LevelCap(stop: StopCondition, price: Price, lot: nat): nat {
    match stop
    case BaseQty(r) => RoundLot(r, lot)
    case QuoteAmount(r) =>
      if price == 0 || r < price then 0 else RoundLot(Sat64(r / price), lot)
  }

  function Consume(stop: StopCondition, executed: nat, price: Price): StopCondition {
    match stop
    case BaseQty(r) => BaseQty(SatSub(r, executed))
    case QuoteAmount(r) => QuoteAmount(SatSub(r, Sat128(price * executed)))
  }

  predicate Done(stop: StopCondition) {
    stop.remaining == 0
  }

  /** The level event of a match that traded. */
  function Announce(side: Side, price: Price, m: LevelMatch): seq<Effect> {
    if m.fills == [] then [] else [LevelChanged(side, price, Sum(Visible, m.orders))]
  }

  /** Cancel the orders of `todo` that satisfy `p`, one by one in queue order; `kept` are
      the orders already passed. */
  function Removal(kept: seq<Order>, todo: seq<Order>, p: Order -> bool, side: Side, price: Price): seq<Effect>
    decreases |todo|
  {
    if todo == [] then []
    else if p(todo[0]) then
      [LevelChanged(side, price, Sum(Visible, kept + todo[1..])), Cancelled(todo[0].tag)]
      + Removal(kept, todo[1..], p, side, price)
    else Removal(kept + [todo[0]], todo[1..], p, side, price)
  }

  /** Match at most `q` of a level, without any conflict. */
  function MatchVisit(q: nat, orders: seq<Order>, back: bool, side: Side, price: Price, halts: bool): Visit {
    var m := MatchLevel(q, orders, back);
    Visit(q, m.orders, m.fills, m.filled, [], q - Min(q, m.remaining), Announce(side, price, m), halts)
  }

  /** Visit one level with a positive cap: resolve self-trade conflicts, then match. */
  function VisitLevel(cfg: Config, tk: Taker, level: Level, cap: nat): Visit {
    var side, price := tk.side.Opposite(), level.price;
    match Decide(level.orders, tk.user, cfg.stp)
    case NoConflict => MatchVisit(cap, level.orders, cfg.requeueBack, side, price, false)
    case StopTaker(safe) =>
      MatchVisit(Min(cap, safe), level.orders, cfg.requeueBack, side, price, true).(cap := cap)
    case RemoveMakers =>
      var v := MatchVisit(cap, Filter(Not(Mine(tk.user)), level.orders), cfg.requeueBack, side, price, false);
      v.(cancelled := Filter(Mine(tk.user), level.orders),
         effects := Removal([], level.orders, Mine(tk.user), side, price) + v.effects)
    case StopBoth(safe, maker) =>
      var v := MatchVisit(Min(cap, safe), level.orders, cfg.requeueBack, side, price, true);
      v.(cap := cap,
         orders := Filter(Not(HasId(maker)), v.orders),
         cancelled := Filter(HasId(maker), v.orders),
         effects := v.effects + Removal([], v.orders, HasId(maker), side, price))
  }

  function Untouched(level: Level): Visit {
    Visit(0, level.orders, [], [], [], 0, [], false)
  }

  function Prepend(v: Visit, w: Walk): Walk {
    w.(visits := [v] + w.visits)
  }

  /** The walk from the first of `levels` on. */
  function Sweep(cfg: Config, tk: Taker, levels: seq<Level>, stop: StopCondition): (w: Walk)
    ensures |w.visits| <= |levels|
  {
    if levels == [] || !Within(tk.side, tk.limit, levels[0].price) then Walk([], stop, false, false)
    else
      var cap := LevelCap(stop, levels[0].price, LotSize(cfg));
      if cap == 0 then Walk([], stop, false, false)
      else if tk.postOnly then
        if Sum(Drawable, levels[0].orders) > 0 then Walk([], stop, false, true)
        else Prepend(Untouched(levels[0]), Sweep(cfg, tk, levels[1..], stop))
      else
        var v := VisitLevel(cfg, tk, levels[0], cap);
        var stop' := Consume(stop, v.executed, levels[0].price);
        if v.halts || Done(stop') then Walk([v], stop', v.halts, false)
        else Prepend(v, Sweep(cfg, tk, levels[1..], stop'))
  }

  /** The levels with the walked ones replaced by what the visits left. */
  function After(levels: seq<Level>, visits: seq<Visit>): (out: seq<Level>)
    requires |visits| <= |levels|
    ensures |out| == |levels|
    ensures forall i :: 0 <= i < |levels| ==> out[i].price == levels[i].price
    ensures forall i :: 0 <= i < |visits| ==> out[i].orders == visits[i].orders
    ensures forall i :: |visits| <= i < |levels| ==> out[i] == levels[i]
  {
    if visits == [] then levels
    else [Level(levels[0].price, visits[0].orders)] + After(levels[1..], visits[1..])
  }

  predicate Occupied(level: Level) {
    level.orders != []
  }

  function Prune(levels: seq<Level>): seq<Level> {
    Filter(Occupied, levels)
  }

  function ExecutedAt(v: Visit): nat {
    v.executed
  }

  /** Base quantity executed by the walk. */
  function TotalExecuted(w: Walk): nat {
    Sum(ExecutedAt, w.visits)
  }

  function Priced(price: Price, fills: seq<Fill>): seq<Trade> {
    seq(|fills|, i requires 0 <= i < |fills| => Trade(fills[i].maker, fills[i].owner, price, fills[i].quantity))
  }

  /** All trades of the walk, in execution order. */
  function Trades(levels: seq<Level>, visits: seq<Visit>): seq<Trade>
    requires |visits| <= |levels|
  {
    if visits == [] then []
    else Priced(levels[0].price, visits[0].fills) + Trades(levels[1..], visits[1..])
  }

  /** Events and cancellations during the walk. */
  function WalkEffects(visits: seq<Visit>): seq<Effect> {
    if visits == [] then [] else visits[0].effects + WalkEffects(visits[1..])
  }

  function FilledEffects(orders: seq<Order>): seq<Effect> {
    seq(|orders|, i requires 0 <= i < |orders| => Filled(orders[i].tag))
  }

  function AllFilled(visits: seq<Visit>): seq<Order> {
    if visits == [] then [] else visits[0].filled + AllFilled(visits[1..])
  }
}
