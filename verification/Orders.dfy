/** Order quantities: totals, the drawable part and the tranche setters. */
module Orders {
  import opened Types

  predicate TwoTranche(k: Kind) {
    k.Iceberg? || k.Reserve?
  }

  /** What the order type itself guarantees: u64 tranches, a u128 price, no hidden
      part on one-tranche kinds and a non-zero replenish amount. */
  predicate Proper(o: Order) {
    && o.visible <= U64_MAX
    && o.hidden <= U64_MAX
    && o.tag.price <= U128_MAX
    && (!TwoTranche(o.kind) ==> o.hidden == 0)
    && (o.kind.Reserve? && o.kind.amount.Some? ==> 0 < o.kind.amount.value <= U64_MAX)
  }

  predicate Immediate(o: Order) {
    o.tif.Ioc? || o.tif.Fok?
  }

  function Visible(o: Order): nat {
    o.visible
  }

  /** Visible plus hidden, unbounded. */
  function Total(o: Order): nat {
    o.visible + o.hidden
  }

  /** The engine's saturating total. */
  function TotalQuantity(o: Order): nat {
    if TwoTranche(o.kind) then Sat64(o.visible + o.hidden) else o.visible
  }

  /** The total when it is representable in a u64. */
  function CheckedTotal(o: Order): Option<nat> {
    if TwoTranche(o.kind) then
      if o.visible + o.hidden <= U64_MAX then Some(o.visible + o.hidden) else None
    else Some(TotalQuantity(o))
  }

  /** Depth the sweep can draw: an iceberg always replenishes, a reserve only when
      it does so automatically. */
  function Drawable(o: Order): nat {
    o.visible + if o.kind.Iceberg? || (o.kind.Reserve? && o.kind.auto) then o.hidden else 0
  }

  predicate Matchable(o: Order) {
    Drawable(o) > 0
  }

  /** The order stays matchable while any of it rests: a reserve that does not replenish
      itself must know what to display. */
  predicate Lit(o: Order) {
    Matchable(o) && (o.kind.Reserve? && !o.kind.auto ==> o.kind.amount.Some?)
  }

  /** Draw a reduction from the visible tranche first, then from the hidden one, and
      refresh an emptied visible tranche from what stays hidden. */
  function ReduceReserve(o: Order, newTotal: nat): Order {
    var cut := SatSub(Sat64(o.visible + o.hidden), newTotal);
    var fromVisible := Min(cut, o.visible);
    var visible := SatSub(o.visible, fromVisible);
    var hidden := SatSub(o.hidden, cut - fromVisible);
    if visible == 0 && hidden > 0 then
      var refresh := Min(if o.kind.Reserve? && o.kind.amount.Some? then o.kind.amount.value else 0, hidden);
      o.(visible := refresh, hidden := SatSub(hidden, refresh))
    else
      o.(visible := visible, hidden := hidden)
  }

  /** The user-facing quantity update: an iceberg keeps its hidden tranche. */
  function SetQuantity(o: Order, quantity: nat): Order {
    if o.kind.Reserve? then ReduceReserve(o, quantity) else o.(visible := quantity)
  }

  /** Distribute a residual total over the tranches before the taker rests. */
  function SetTotalRemaining(o: Order, remaining: nat): Order {
    match o.kind
    case Iceberg =>
      var visible := Min(o.visible, remaining);
      o.(visible := visible, hidden := remaining - visible)
    case Reserve(_, _) => ReduceReserve(o, remaining)
    case _ => o.(visible := remaining)
  }

  /** The residual split conserves quantity for every kind: only the two tranches change and
      together they hold exactly the unmatched remainder. */
  lemma ResidualConserved(o: Order, remaining: nat)
    requires Proper(o) && CheckedTotal(o).Some?
    requires remaining <= TotalQuantity(o)
    ensures var r := SetTotalRemaining(o, remaining);
            && Total(r) == remaining
            && Proper(r)
            && r == o.(visible := r.visible, hidden := r.hidden)
            && (o.kind.Iceberg? ==> r.visible == Min(o.visible, remaining))
            && (remaining > 0 ==>
                  (r.visible == 0 <==>
                   || (o.kind.Iceberg? && o.visible == 0)
                   || (o.kind.Reserve? && o.kind.amount.None? && remaining <= o.hidden)))
  {
  }

  /** No subtraction of the reserve split saturates: it pays from the display first, from the
      hidden tranche no more than that holds, and refreshes the display once only hidden
      quantity is left. */
  lemma ReserveSplit(o: Order, remaining: nat)
    requires Proper(o) && CheckedTotal(o).Some? && o.kind.Reserve?
    requires remaining <= TotalQuantity(o)
    ensures var r, cut := SetTotalRemaining(o, remaining), Total(o) - remaining;
            && Sat64(Total(o)) == Total(o)
            && cut - Min(cut, o.visible) <= o.hidden
            && (remaining > o.hidden ==> r.visible == remaining - o.hidden && r.hidden == o.hidden)
            && (remaining <= o.hidden ==>
                  && r.visible == Min(if o.kind.amount.Some? then o.kind.amount.value else 0, remaining)
                  && r.hidden == remaining - r.visible)
  {
  }

  lemma ResidualLit(o: Order, remaining: nat)
    requires Proper(o) && CheckedTotal(o).Some? && Lit(o)
    requires 0 < remaining <= TotalQuantity(o)
    ensures Lit(SetTotalRemaining(o, remaining))
  {
    ResidualConserved(o, remaining);
  }
}
