/** Values shared by every part of the order book model.

    Machine integers are naturals with explicit bounds: quantities live below
    `U64_MAX`, prices and notionals below `U128_MAX`. Saturating operations of the
    engine are written out with `Sat64`, `Sat128` and `SatSub`. */
module Types {

  const U64_MAX: nat := 0xFFFF_FFFF_FFFF_FFFF
  const U128_MAX: nat := 0xFFFF_FFFF_FFFF_FFFF_FFFF_FFFF_FFFF_FFFF

  datatype Option<+T> = None | Some(value: T)

  type Id = nat
  type User = nat
  type Price = nat

  /** The all-zero user id: its orders bypass self-trade prevention. */
  const ANONYMOUS: User := 0

  datatype Side = Buy | Sell {
    function Opposite(): Side {
      if Buy? then Sell else Buy
    }
  }

  datatype TimeInForce = Gtc | Ioc | Fok | Gtd(deadline: nat) | Day

  /** The order kinds; only `Iceberg` and `Reserve` own a hidden tranche. */
  datatype Kind =
    | Standard
    | PostOnly
    | TrailingStop
    | Pegged
    | MarketToLimit
    | Iceberg
    | Reserve(amount: Option<nat>, auto: bool)

  /** Identity and place of an order: what matching never changes. */
  datatype Tag = Tag(id: Id, user: User, side: Side, price: Price)

  /** An order; `visible` is the quantity of a one-tranche kind. */
  datatype Order = Order(tag: Tag, tif: TimeInForce, kind: Kind, visible: nat, hidden: nat)

  datatype Level = Level(price: Price, orders: seq<Order>)

  datatype StpMode = Off | CancelTaker | CancelMaker | CancelBoth

  /** Book configuration. The last two fields leave open what the external price
      level crate decides: whether a replenished maker re-queues at the back, and
      whether a quantity update that leaves nothing removes the order. */
  datatype Config = Config(tick: Option<nat>, lot: Option<nat>, minSize: Option<nat>, maxSize: Option<nat>,
                           stp: StpMode, requeueBack: bool, dropZero: bool)

  function Min(a: nat, b: nat): nat {
    if a <= b then a else b
  }

  function Sat64(n: nat): nat {
    Min(n, U64_MAX)
  }

  function Sat128(n: nat): nat {
    Min(n, U128_MAX)
  }

  function SatSub(a: nat, b: nat): nat {
    if b <= a then a - b else 0
  }

  /** `Better(side, p, q)`: a resting order of `side` at `p` trades before one at `q`. */
  predicate Better(side: Side, p: Price, q: Price) {
    if side.Buy? then p > q else p < q
  }

  /** A taker on `side` with limit `limit` may trade at `price`. */
  predicate Within(side: Side, limit: Option<Price>, price: Price) {
    match limit
    case None => true
    case Some(l) => if side.Buy? then price <= l else price >= l
  }

  function LotSize(cfg: Config): nat {
    if cfg.lot.Some? then cfg.lot.value else 1
  }
}
