/** The book's queues and location index, and every operation on them as a function:
    the new state, the effects in the order the engine performs them, and the reply. */
module Engine {
  import opened Types
  import opened Seqs
  import opened Orders
  import opened Stp
  import opened Effects
  import opened Matching
  import opened BudgetLaws
  import opened SelfCross

  /** Both sides are listed best first. `close` is the market close for day orders. */
  datatype Core = Core(cfg: Config, bids: seq<Level>, asks: seq<Level>, locations: map<Id, Location>,
                       killed: bool, close: Option<nat>)

  datatype Error =
    | KillSwitchActive
    | QuantityOverflow(visible: nat, hidden: nat)
    | DuplicateOrderId(id: Id)
    | MissingUserId(id: Id)
    | InvalidTickSize(price: Price)
    | InvalidLotSize(quantity: nat)
    | OrderSizeOutOfRange(quantity: nat)
    | InvalidOperation
    | PriceCrossing(price: Price, opposite: Price)
    | InsufficientLiquidity(requested: nat, available: nat)
    | InsufficientNotional(requested: nat)
    | SelfTradePrevented(taker: Id)
    | LevelCapacity(id: Id)

  datatype Reply<+T> = Ok(value: T) | Err(error: Error)

  datatype Outcome<+T> = Outcome(core: Core, effects: seq<Effect>, reply: T)

  function SideOf(c: Core, side: Side): seq<Level> {
    if side.Buy? then c.bids else c.asks
  }

  function WithSide(c: Core, side: Side, levels: seq<Level>): Core {
    if side.Buy? then c.(bids := levels) else c.(asks := levels)
  }

  /** Install one side and replay the effects on the location index. */
  function Settle(c: Core, side: Side, levels: seq<Level>, es: seq<Effect>): Core {
    WithSide(c, side, levels).(locations := Locate(c.locations, es))
  }

  // ---- Queue access ----

  function FindOrder(orders: seq<Order>, id: Id): Option<Order> {
    if orders == [] then None
    else if orders[0].tag.id == id then Some(orders[0])
    else FindOrder(orders[1..], id)
  }

  function LevelAt(levels: seq<Level>, price: Price): Option<Level> {
    if levels == [] then None
    else if levels[0].price == price then Some(levels[0])
    else LevelAt(levels[1..], price)
  }

  /** The resting order with this id, found through the location index. */
  function GetOrder(c: Core, id: Id): Option<Order> {
    if id !in c.locations then None
    else match LevelAt(SideOf(c, c.locations[id].side), c.locations[id].price)
      case None => None
      case Some(l) => FindOrder(l.orders, id)
  }

  /** Replace the queue at `price`; an empty queue removes the level. */
  function PutQueue(levels: seq<Level>, price: Price, orders: seq<Order>): seq<Level> {
    if levels == [] then []
    else if levels[0].price == price then
      if orders == [] then levels[1..] else [Level(price, orders)] + levels[1..]
    else [levels[0]] + PutQueue(levels[1..], price, orders)
  }

  /** Append an order to the level at its price, created in price order when missing. */
  function Place(side: Side, levels: seq<Level>, o: Order): seq<Level> {
    if levels == [] || Better(side, o.tag.price, levels[0].price) then [Level(o.tag.price, [o])] + levels
    else if levels[0].price == o.tag.price then [Level(o.tag.price, levels[0].orders + [o])] + levels[1..]
    else [levels[0]] + Place(side, levels[1..], o)
  }

  function QueueAt(levels: seq<Level>, price: Price): seq<Order> {
    match LevelAt(levels, price)
    case None => []
    case Some(l) => l.orders
  }

  /** The level counters can absorb the order. */
  predicate Room(levels: seq<Level>, o: Order) {
    Sum(Total, QueueAt(levels, o.tag.price)) + Total(o) <= U64_MAX
  }

  // ---- Validation ----

  predicate Expired(tif: TimeInForce, now: nat, close: Option<nat>) {
    match tif
    case Gtd(deadline) => now >= deadline
    case Day => close.Some? && now >= close.value
    case _ => false
  }

  function BestPrice(levels: seq<Level>): Option<Price> {
    if levels == [] then None else Some(levels[0].price)
  }

  predicate WillCross(c: Core, price: Price, side: Side) {
    var best := BestPrice(SideOf(c, side.Opposite()));
    best.Some? && Within(side, Some(price), best.value)
  }

  function OppositeBest(c: Core, side: Side): Price {
    var best := BestPrice(SideOf(c, side.Opposite()));
    if best.Some? then best.value else 0
  }

  function TakerOf(o: Order): Taker {
    Taker(o.tag.id, o.tag.user, o.tag.side, Some(o.tag.price), o.kind.PostOnly?)
  }

  /** The depth a fill-or-kill order would fill. */
  function Fillable(c: Core, o: Order): nat {
    FokWalk(c.cfg, TakerOf(o).(postOnly := false), SideOf(c, o.tag.side.Opposite()), TotalQuantity(o))
  }

  function LotError(lot: nat, o: Order): Option<Error> {
    if lot == 0 then None
    else if o.kind.Iceberg? then
      if o.visible % lot != 0 then Some(InvalidLotSize(o.visible))
      else if o.hidden % lot != 0 then Some(InvalidLotSize(o.hidden))
      else None
    else if TotalQuantity(o) % lot != 0 then Some(InvalidLotSize(TotalQuantity(o)))
    else None
  }

  /** The checks of admission that read only the order and the configuration, in order. */
  function FieldError(c: Core, o: Order, now: nat): Option<Error> {
    var total := TotalQuantity(o);
    if CheckedTotal(o).None? then Some(QuantityOverflow(o.visible, o.hidden))
    else if c.cfg.stp != Off && o.tag.user == ANONYMOUS then Some(MissingUserId(o.tag.id))
    else if c.cfg.tick.Some? && c.cfg.tick.value > 0 && o.tag.price % c.cfg.tick.value != 0 then
      Some(InvalidTickSize(o.tag.price))
    else if c.cfg.lot.Some? && LotError(c.cfg.lot.value, o).Some? then LotError(c.cfg.lot.value, o)
    else if c.cfg.minSize.Some? && total < c.cfg.minSize.value then Some(OrderSizeOutOfRange(total))
    else if c.cfg.maxSize.Some? && total > c.cfg.maxSize.value then Some(OrderSizeOutOfRange(total))
    else if Expired(o.tif, now, c.close) then Some(InvalidOperation)
    else None
  }

  /** The shape checks of admission; `None` admits. */
  function Validate(c: Core, o: Order, now: nat): Option<Error> {
    var total := TotalQuantity(o);
    if FieldError(c, o, now).Some? then FieldError(c, o, now)
    else if o.kind.PostOnly? && WillCross(c, o.tag.price, o.tag.side) then
      Some(PriceCrossing(o.tag.price, OppositeBest(c, o.tag.side)))
    else if o.tif.Fok? && Fillable(c, o) < total then Some(InsufficientLiquidity(total, Fillable(c, o)))
    else None
  }

  // ---- Matching ----

  /** The result handed to the caller. A trade beyond the quantity slot is refused. */
  datatype MatchResult = MatchResult(remaining: nat, trades: seq<Trade>, filled: seq<Id>)

  function AddTrade(m: MatchResult, t: Trade): MatchResult {
    if t.quantity <= m.remaining then m.(remaining := m.remaining - t.quantity, trades := m.trades + [t]) else m
  }

  function AddTrades(m: MatchResult, ts: seq<Trade>): MatchResult {
    Fold(AddTrade, m, ts)
  }

  /** The quantity slot: a notional walk works with the largest u64. */
  function Slot(stop: StopCondition): nat {
    match stop
    case BaseQty(q) => q
    case QuoteAmount(_) => U64_MAX
  }

  function Ids(orders: seq<Order>): seq<Id> {
    seq(|orders|, i requires 0 <= i < |orders| => orders[i].tag.id)
  }

  /** Rebuild a notional result so that nothing remains, falling back to the source when a
      trade does not fit. */
  function Normalize(m: MatchResult): MatchResult {
    var rebuilt := AddTrades(MatchResult(Sat64(Sum(TradeSize, m.trades)), [], []), m.trades);
    if |rebuilt.trades| < |m.trades| then m else rebuilt.(filled := m.filled)
  }

  datatype MatchReply = MatchReply(result: MatchResult, stpCancelled: bool, rejected: bool)

  function MatchWalk(c: Core, tk: Taker, stop: StopCondition): Walk {
    Sweep(c.cfg, tk, SideOf(c, tk.side.Opposite()), stop)
  }

  function MatchEffects(w: Walk): seq<Effect> {
    WalkEffects(w.visits) + FilledEffects(AllFilled(w.visits))
  }

  /** Sweep the opposite side, remove emptied levels and filled makers, and reply. */
  function Match(c: Core, tk: Taker, stop: StopCondition): Outcome<Reply<MatchReply>> {
    var levels := SideOf(c, tk.side.Opposite());
    var w := MatchWalk(c, tk, stop);
    var result := AddTrades(MatchResult(Slot(stop), [], []), Trades(levels, w.visits)).(filled := Ids(AllFilled(w.visits)));
    var reply :=
      if w.stpCancelled && result.trades == [] then Err(SelfTradePrevented(tk.id))
      else if result.trades == [] && stop.QuoteAmount? then Err(InsufficientNotional(stop.remaining))
      else if result.trades == [] && tk.limit.None? then Err(InsufficientLiquidity(stop.remaining, 0))
      else Ok(MatchReply(if stop.QuoteAmount? then Normalize(result) else result, w.stpCancelled, w.rejected));
    Outcome(Settle(c, tk.side.Opposite(), Prune(After(levels, w.visits)), MatchEffects(w)), MatchEffects(w), reply)
  }

  /** The trade listener fires when anything traded. */
  function Report(id: Id, trades: seq<Trade>): seq<Effect> {
    if trades == [] then [] else [Traded(id, trades)]
  }

  /** A taker that never rests: market, limit and notional matches. */
  function Take(c: Core, tk: Taker, stop: StopCondition): Outcome<Reply<MatchResult>> {
    var m := Match(c, tk, stop);
    match m.reply
    case Err(e) => Outcome(m.core, m.effects, Err(e))
    case Ok(r) => Outcome(m.core, m.effects + Report(tk.id, r.result.trades), Ok(r.result))
  }

  function MarketTaker(id: Id, user: User, side: Side): Taker {
    Taker(id, user, side, None, false)
  }

  /** A market order as it is submitted: refused while the kill switch is on. */
  function TakeMarket(c: Core, tk: Taker, stop: StopCondition): Outcome<Reply<MatchResult>> {
    if c.killed then Outcome(c, [], Err(KillSwitchActive)) else Take(c, tk, stop)
  }

  // ---- Adding ----

  /** Append an order to its own side. */
  function Rest(c: Core, o: Order): Outcome<Reply<Order>> {
    var levels := SideOf(c, o.tag.side);
    if !Room(levels, o) then Outcome(c, [], Err(LevelCapacity(o.tag.id)))
    else
      var es := [LevelChanged(o.tag.side, o.tag.price, Sum(Visible, QueueAt(levels, o.tag.price) + [o])), Rested(o.tag)];
      Outcome(Settle(c, o.tag.side, Place(o.tag.side, levels, o), es), es, Ok(o))
  }

  /** A crossing order that may rest must fit its own level before anything trades. */
  predicate Headroom(c: Core, o: Order) {
    !Immediate(o) && WillCross(c, o.tag.price, o.tag.side) ==> Room(SideOf(c, o.tag.side), o)
  }

  function Residual(o: Order, remaining: nat): Order {
    if remaining < TotalQuantity(o) then SetTotalRemaining(o, remaining) else o
  }

  /** What an admitted order does once its sweep replied. */
  function Finish(c: Core, o: Order, es: seq<Effect>, r: MatchReply): Outcome<Reply<Order>> {
    if r.rejected then Outcome(c, es, Err(PriceCrossing(o.tag.price, OppositeBest(c, o.tag.side))))
    else
      var all := es + Report(o.tag.id, r.result.trades);
      var remaining := r.result.remaining;
      if r.stpCancelled then Outcome(c, all, Err(SelfTradePrevented(o.tag.id)))
      else if remaining == 0 then Outcome(c, all, Ok(o))
      else if Immediate(o) then
        Outcome(c, all, Err(InsufficientLiquidity(o.visible, SatSub(o.visible, remaining))))
      else
        var rest := Rest(c, Residual(o, remaining));
        Outcome(rest.core, all + rest.effects, rest.reply)
  }

  /** Checks before the sweep; `None` admits. */
  function Refusal(c: Core, o: Order, now: nat): Option<Error> {
    if c.killed then Some(KillSwitchActive)
    else if CheckedTotal(o).None? then Some(QuantityOverflow(o.visible, o.hidden))
    else if o.tag.id in c.locations then Some(DuplicateOrderId(o.tag.id))
    else if Validate(c, o, now).Some? then Validate(c, o, now)
    else if !Headroom(c, o) then Some(InvalidOperation)
    else None
  }

  function Add(c: Core, o: Order, now: nat): Outcome<Reply<Order>> {
    match Refusal(c, o, now)
    case Some(e) => Outcome(c, [], Err(e))
    case None =>
      var m := Match(c, TakerOf(o), BaseQty(TotalQuantity(o)));
      match m.reply
      case Err(e) => Outcome(m.core, m.effects, Err(e))
      case Ok(r) => Finish(m.core, o, m.effects, r)
  }

  // ---- Cancelling ----

  /** Remove one resting order; `mark` is the effect that records it. */
  function Remove(c: Core, id: Id, mark: Tag -> Effect): Outcome<Option<Order>> {
    match GetOrder(c, id)
    case None => Outcome(c, [], None)
    case Some(o) =>
      var side, price := c.locations[id].side, c.locations[id].price;
      var queue := Filter(Not(HasId(id)), QueueAt(SideOf(c, side), price));
      var es := [LevelChanged(side, price, Sum(Visible, queue)), mark(o.tag)];
      Outcome(Settle(c, side, PutQueue(SideOf(c, side), price, queue), es), es, Some(o))
  }

  function ByCancel(t: Tag): Effect {
    Cancelled(t)
  }

  function ByUpdate(t: Tag): Effect {
    Withdrawn(t)
  }

  function Cancel(c: Core, id: Id): Outcome<Option<Order>> {
    Remove(c, id, ByCancel)
  }

  // ---- Updating ----

  /** Replace a resting order by `o`: validate first, then cancel and add. */
  function Modify(c: Core, o: Order, now: nat): Outcome<Reply<Option<Order>>> {
    var invalid := Validate(c, o, now);
    if invalid.Some? then Outcome(c, [], Err(invalid.value))
    else if StopsTaker(c.cfg.stp, o.tag.user) && Reaches(TakerOf(o), SideOf(c, o.tag.side.Opposite()), TotalQuantity(o)) then
      Outcome(c, [], Err(SelfTradePrevented(o.tag.id)))
    else
      var cut := Cancel(c, o.tag.id);
      var add := Add(cut.core, o, now);
      Outcome(add.core, cut.effects + add.effects, match add.reply case Ok(r) => Ok(Some(r)) case Err(e) => Err(e))
  }

  datatype Update =
    | UpdatePrice(id: Id, price: Price)
    | UpdateQuantity(id: Id, quantity: nat)
    | UpdatePriceAndQuantity(id: Id, price: Price, quantity: nat)
    | Replace(id: Id, price: Price, quantity: nat, side: Side)
    | Withdraw(id: Id)

  /** The order a modify re-adds. */
  function Revised(o: Order, u: Update): Order {
    match u
    case UpdatePrice(_, p) => o.(tag := o.tag.(price := p))
    case UpdatePriceAndQuantity(_, p, q) => SetQuantity(o.(tag := o.tag.(price := p)), q)
    case Replace(_, p, q, s) => o.(tag := o.tag.(price := p, side := s), visible := q)
    case UpdateQuantity(_, q) => o.(visible := q)
    case Withdraw(_) => o
  }

  /** The queue with `o` in place of the order of the same id: in place when the total does
      not grow, at the back when it does. */
  function Resized(queue: seq<Order>, o: Order, grows: bool): seq<Order> {
    if grows then Filter(Not(HasId(o.tag.id)), queue) + [o] else Substitute(queue, o)
  }

  function Substitute(queue: seq<Order>, o: Order): seq<Order> {
    if queue == [] then []
    else [if queue[0].tag.id == o.tag.id then o else queue[0]] + Substitute(queue[1..], o)
  }

  /** Resize a resting order inside its level. */
  function Resize(c: Core, prior: Order, o: Order, now: nat): Outcome<Reply<Option<Order>>> {
    var levels := SideOf(c, o.tag.side);
    var queue := QueueAt(levels, o.tag.price);
    var invalid := Validate(c, o, now);
    if invalid.Some? then Outcome(c, [], Err(invalid.value))
    else if c.cfg.dropZero && Total(o) == 0 then
      var left := Filter(Not(HasId(o.tag.id)), queue);
      var es := [LevelChanged(o.tag.side, o.tag.price, Sum(Visible, left))]
                + if left == [] then [Withdrawn(o.tag)] else [];
      Outcome(Settle(c, o.tag.side, PutQueue(levels, o.tag.price, left), es), es, Ok(Some(o)))
    else if SatSub(Sum(Total, queue), Total(prior)) + Total(o) > U64_MAX then
      Outcome(c, [], Err(LevelCapacity(o.tag.id)))
    else
      var resized := Resized(queue, o, Total(o) > Total(prior));
      var es := [LevelChanged(o.tag.side, o.tag.price, Sum(Visible, resized))];
      Outcome(Settle(c, o.tag.side, PutQueue(levels, o.tag.price, resized), es), es, Ok(Some(o)))
  }

  function UpdateOrder(c: Core, u: Update, now: nat): Outcome<Reply<Option<Order>>> {
    if c.killed && !u.Withdraw? then Outcome(c, [], Err(KillSwitchActive))
    else match u
      case Withdraw(id) => var r := Remove(c, id, ByUpdate); Outcome(r.core, r.effects, Ok(r.reply))
      case _ =>
        if u.UpdatePrice? && u.id in c.locations && c.locations[u.id].price == u.price then
          Outcome(c, [], Err(InvalidOperation))
        else match GetOrder(c, u.id)
          case None => Outcome(c, [], Ok(None))
          case Some(o) => if u.UpdateQuantity? then Resize(c, o, Revised(o, u), now) else Modify(c, Revised(o, u), now)
  }

  // ---- Mass cancel ----

  datatype Batch = Batch(core: Core, effects: seq<Effect>, cancelled: seq<Order>)

  /** Cancel ids one by one, skipping those that do not rest. */
  function CancelEach(c: Core, ids: seq<Id>): Batch
    decreases |ids|
  {
    if ids == [] then Batch(c, [], [])
    else
      var first := Cancel(c, ids[0]);
      var rest := CancelEach(first.core, ids[1..]);
      Batch(rest.core, first.effects + rest.effects,
            (if first.reply.Some? then [first.reply.value] else []) + rest.cancelled)
  }

  /** Orders of a side by ascending price, in queue order inside a level. */
  function Ascending(side: Side, levels: seq<Level>): seq<Order> {
    if levels == [] then []
    else if side.Buy? then Ascending(side, levels[1..]) + levels[0].orders
    else levels[0].orders + Ascending(side, levels[1..])
  }

  function AllAscending(c: Core): seq<Order> {
    Ascending(Buy, c.bids) + Ascending(Sell, c.asks)
  }

  function Zeroed(side: Side, levels: seq<Level>): seq<Effect> {
    if levels == [] then []
    else if side.Buy? then Zeroed(side, levels[1..]) + [LevelChanged(side, levels[0].price, 0)]
    else [LevelChanged(side, levels[0].price, 0)] + Zeroed(side, levels[1..])
  }

  function CancelledEffects(orders: seq<Order>): seq<Effect> {
    seq(|orders|, i requires 0 <= i < |orders| => Cancelled(orders[i].tag))
  }

  /** Clear the whole book at once. */
  function CancelAll(c: Core): Batch {
    var orders := AllAscending(c);
    if orders == [] then Batch(c, [], [])
    else
      var es := Zeroed(Buy, c.bids) + Zeroed(Sell, c.asks) + CancelledEffects(orders);
      Batch(c.(bids := [], asks := [], locations := map[]), es, orders)
  }

  function InRange(low: Price, high: Price): Order -> bool {
    (o: Order) => low <= o.tag.price <= high
  }

  function ExpiredAt(now: nat, close: Option<nat>): Order -> bool {
    (o: Order) => Expired(o.tif, now, close)
  }

  function CancelBySide(c: Core, side: Side): Batch {
    CancelEach(c, Ids(Ascending(side, SideOf(c, side))))
  }

  function CancelByRange(c: Core, side: Side, low: Price, high: Price): Batch {
    if low > high then Batch(c, [], [])
    else CancelEach(c, Ids(Filter(InRange(low, high), Ascending(side, SideOf(c, side)))))
  }

  function EvictExpired(c: Core, now: nat): Batch {
    CancelEach(c, Ids(Filter(ExpiredAt(now, c.close), AllAscending(c))))
  }
}
