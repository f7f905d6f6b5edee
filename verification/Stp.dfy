/** Self-trade prevention: the decision taken at one price level. */
module Stp {
  import opened Types
  import opened Seqs
  import opened Orders

  datatype Action =
    | NoConflict
    | StopTaker(safe: nat)
    | RemoveMakers
    | StopBoth(safe: nat, maker: Id)

  /** Position of the first order of `user`, or the length of the queue. */
  function FirstOwned(orders: seq<Order>, user: User): (k: nat)
    ensures k <= |orders|
    ensures forall i :: 0 <= i < k ==> orders[i].tag.user != user
    ensures k < |orders| ==> orders[k].tag.user == user
  {
    if orders == [] || orders[0].tag.user == user then 0 else 1 + FirstOwned(orders[1..], user)
  }

  predicate Active(mode: StpMode, user: User) {
    mode != Off && user != ANONYMOUS
  }

  /** The action at a level: `safe` is the quantity displayed ahead of the taker's own
      first order, in a u64. */
  function Decide(orders: seq<Order>, user: User, mode: StpMode): Action {
    var k := FirstOwned(orders, user);
    if !Active(mode, user) || k == |orders| then NoConflict
    else match mode
      case Off => NoConflict
      case CancelTaker => StopTaker(Sat64(Sum(Visible, orders[..k])))
      case CancelMaker => RemoveMakers
      case CancelBoth => StopBoth(Sat64(Sum(Visible, orders[..k])), orders[k].tag.id)
  }

  /** The scan of the queue: one pass in queue order that stops at the taker's own order. */
  method CheckStpAtLevel(orders: seq<Order>, user: User, mode: StpMode) returns (action: Action)
    ensures action == Decide(orders, user, mode)
  {
    if mode == Off || user == ANONYMOUS {
      return NoConflict;
    }
    var safe := 0;
    for i := 0 to |orders|
      invariant FirstOwned(orders, user) >= i
      invariant safe == Sat64(Sum(Visible, orders[..i]))
    {
      if orders[i].tag.user == user {
        assert FirstOwned(orders, user) == i;
        match mode {
          case CancelTaker => return StopTaker(safe);
          case CancelMaker => return RemoveMakers;
          case CancelBoth => return StopBoth(safe, orders[i].tag.id);
        }
      }
      assert orders[..i + 1] == orders[..i] + [orders[i]];
      SumAppend(Visible, orders[..i], [orders[i]]);
      safe := Sat64(safe + orders[i].visible);
    }
    action := NoConflict;
  }

  function Mine(user: User): Order -> bool {
    (o: Order) => o.tag.user == user
  }

  function HasId(id: Id): Order -> bool {
    (o: Order) => o.tag.id == id
  }
}
