/** Dry runs for the caller: the simulated market order, the peeked quantity and the market
    impact. Each is a loop over the levels of one side, best first, and each is compared
    with the sweep that a market order really makes. */
module Analytics {
  import opened Types
  import opened Seqs
  import opened Orders
  import opened Levels
  import opened Stp
  import opened Arith
  import opened Matching
  import opened VisitLaws
  import opened SweepLaws
  import opened BudgetLaws

  datatype Slice = Slice(price: Price, quantity: nat)

  datatype Simulation = Simulation(slices: seq<Slice>, average: real, filled: nat, remaining: nat)

  datatype Impact = Impact(average: real, worst: Price, slippage: nat, basisPoints: real, consumed: nat, available: nat)

  /** A level's visible and hidden quantity; a level counter that overflowed reads as zero. */
  function Available(l: Level): nat {
    if Sum(Total, l.orders) <= U64_MAX then Sum(Total, l.orders) else 0
  }

  function Quantities(s: Slice): nat {
    s.quantity
  }

  /** The product of the loops, which wraps at 128 bits. */
  function Worth(price: Price, quantity: nat): nat {
    Spend(price, quantity) % (U128_MAX + 1)
  }

  function Value(s: Slice): nat {
    Worth(s.price, s.quantity)
  }

  /** The product without a machine bound. */
  function Due(s: Slice): nat {
    Spend(s.price, s.quantity)
  }

  function Average(cost: nat, filled: nat): real {
    if filled == 0 then 0.0 else cost as real / filled as real
  }

  function BasisPoints(slippage: nat, best: Price): real {
    if best == 0 then 0.0 else slippage as real / best as real * 10_000.0
  }

  // ---- What the loops compute ----

  function Taken(price: Price, take: nat): seq<Slice> {
    if take == 0 then [] else [Slice(price, take)]
  }

  /** The slices a quantity takes, level by level, when everything resting can be drawn. */
  function Slices(levels: seq<Level>, quantity: nat): seq<Slice> {
    if levels == [] || quantity == 0 then []
    else
      var take := Min(quantity, Available(levels[0]));
      Taken(levels[0].price, take) + Slices(levels[1..], quantity - take)
  }

  function Reachable(side: Side, limit: Option<Price>, levels: seq<Level>): seq<Level> {
    if levels == [] || !Within(side, limit, levels[0].price) then [] else [levels[0]] + Reachable(side, limit, levels[1..])
  }

  lemma NoSlices(quantity: nat)
    ensures Slices([], quantity) == [] && Sum(Available, []) == 0 && Sum(Value, []) == 0 && Sum(Quantities, []) == 0
    ensures Sat128(0) == 0
  {
  }

  /** One more slice, in the saturating account of the cost. */
  lemma SliceAdded(slices: seq<Slice>, price: Price, take: nat)
    ensures Sat128(Sat128(Sum(Value, slices)) + Worth(price, take)) == Sat128(Sum(Value, slices + [Slice(price, take)]))
  {
    hide Worth;
    SumAppend(Value, slices, [Slice(price, take)]);
    assert Sum(Value, [Slice(price, take)]) == Worth(price, take);
  }

  lemma OneLevel(l: Level)
    ensures Sum(Available, [l]) == Available(l)
  {
  }

  lemma {:induction false} SlicesMore(levels: seq<Level>, i: nat, quantity: nat)
    requires i < |levels|
    ensures var left := quantity - Min(quantity, Sum(Available, levels[..i]));
            var take := Min(left, Available(levels[i]));
            && Slices(levels[..i + 1], quantity) == Slices(levels[..i], quantity) + Taken(levels[i].price, take)
            && Sum(Available, levels[..i + 1]) == Sum(Available, levels[..i]) + Available(levels[i])
  {
    assert levels[..i + 1] == levels[..i] + [levels[i]];
    SumAppend(Available, levels[..i], [levels[i]]);
    assert Sum(Available, [levels[i]]) == Available(levels[i]);
    SlicesAppend(levels[..i], levels[i], quantity);
  }

  lemma {:induction false} SlicesAppend(levels: seq<Level>, l: Level, quantity: nat)
    ensures var take := Min(quantity - Min(quantity, Sum(Available, levels)), Available(l));
            Slices(levels + [l], quantity) == Slices(levels, quantity) + Taken(l.price, take)
  {
    if levels == [] {
      assert levels + [l] == [l] && [l][1..] == [];
    } else {
      var take := Min(quantity, Available(levels[0]));
      assert (levels + [l])[0] == levels[0] && (levels + [l])[1..] == levels[1..] + [l];
      SlicesAppend(levels[1..], l, quantity - take);
    }
  }

  lemma TakenSum(price: Price, take: nat, rest: seq<Slice>)
    ensures Sum(Quantities, Taken(price, take) + rest) == take + Sum(Quantities, rest)
  {
    if take == 0 {
      assert [] + rest == rest;
    } else {
      SumCons(Quantities, Slice(price, take), rest);
    }
  }

  /** The slices take the whole depth or the whole quantity, whichever is less. */
  lemma {:induction false} SlicesTotal(levels: seq<Level>, quantity: nat)
    ensures Sum(Quantities, Slices(levels, quantity)) == Min(quantity, Sum(Available, levels))
  {
    if levels != [] && quantity != 0 {
      var take := Min(quantity, Available(levels[0]));
      SlicesTotal(levels[1..], quantity - take);
      TakenSum(levels[0].price, take, Slices(levels[1..], quantity - take));
    }
  }

  lemma {:induction false} SlicesDone(levels: seq<Level>, i: nat, quantity: nat)
    requires i <= |levels| && quantity <= Sum(Available, levels[..i])
    ensures Slices(levels, quantity) == Slices(levels[..i], quantity)
    decreases |levels| - i
  {
    if i < |levels| {
      SlicesMore(levels, i, quantity);
      SlicesDone(levels, i + 1, quantity);
    } else {
      assert levels[..i] == levels;
    }
  }

  /** A walk that ended early has taken everything it would take. */
  lemma WalkSettled(levels: seq<Level>, i: nat, quantity: nat)
    requires i <= |levels| && (i == |levels| || quantity <= Sum(Available, levels[..i]))
    ensures Slices(levels, quantity) == Slices(levels[..i], quantity)
    ensures Sum(Quantities, Slices(levels, quantity)) == Min(quantity, Sum(Available, levels[..i])) == Min(quantity, Sum(Available, levels))
  {
    hide Available, Slices, Sum;
    if i == |levels| {
      assert levels[..i] == levels;
    } else {
      SlicesDone(levels, i, quantity);
    }
    SlicesTotal(levels, quantity);
    SlicesTotal(levels[..i], quantity);
  }

  /** The simulated market order. */
  method SimulateMarketOrder(levels: seq<Level>, quantity: nat) returns (sim: Simulation)
    requires quantity <= U64_MAX
    ensures sim.slices == Slices(levels, quantity)
    ensures sim.average == Average(Sat128(Sum(Value, sim.slices)), sim.filled)
    ensures sim.filled == Sum(Quantities, sim.slices) == Min(quantity, Sum(Available, levels))
    ensures sim.remaining == quantity - sim.filled
  {
    hide Available, Slices, Sum, Value, Sat128, Worth, Quantities, Average;
    NoSlices(quantity);
    assert levels[..0] == [];
    var remaining, cost, filled, slices := quantity, 0, 0, [];
    var i := 0;
    while i < |levels| && remaining != 0
      invariant i <= |levels|
      invariant slices == Slices(levels[..i], quantity)
      invariant filled == Min(quantity, Sum(Available, levels[..i]))
      invariant remaining == quantity - filled
      invariant cost == Sat128(Sum(Value, slices))
    {
      var price, available := levels[i].price, Available(levels[i]);
      SlicesMore(levels, i, quantity);
      if available != 0 {
        var take := Min(remaining, available);
        SliceAdded(slices, price, take);
        cost := Sat128(cost + Worth(price, take));
        filled := Sat64(filled + take);
        slices := slices + [Slice(price, take)];
        remaining := SatSub(remaining, take);
      }
      i := i + 1;
    }
    WalkSettled(levels, i, quantity);
    sim := Simulation(slices, Average(cost, filled), filled, remaining);
  }

  lemma ReachableAt(side: Side, limit: Option<Price>, levels: seq<Level>, i: nat)
    requires i < |levels| && Reachable(side, limit, levels) == levels[..i] + Reachable(side, limit, levels[i..])
    ensures if Within(side, limit, levels[i].price)
            then Reachable(side, limit, levels) == levels[..i + 1] + Reachable(side, limit, levels[i + 1..])
            else Reachable(side, limit, levels) == levels[..i]
    ensures Sum(Available, levels[..i + 1]) == Sum(Available, levels[..i]) + Available(levels[i])
  {
    hide Within, Available;
    var here, ahead := levels[i], Reachable(side, limit, levels[i + 1..]);
    assert levels[i..] == [here] + levels[i + 1..] && levels[..i + 1] == levels[..i] + [here];
    ReachableCons(side, limit, here, levels[i + 1..]);
    assert levels[..i] + ([here] + ahead) == levels[..i + 1] + ahead;
    SumAppend(Available, levels[..i], [here]);
    OneLevel(here);
  }

  lemma ReachableCons(side: Side, limit: Option<Price>, l: Level, rest: seq<Level>)
    ensures Reachable(side, limit, [l] + rest) == if Within(side, limit, l.price) then [l] + Reachable(side, limit, rest) else []
  {
    assert ([l] + rest)[1..] == rest;
  }

  /** The quantity a match within a limit would find, counting hidden parts. */
  method PeekMatch(levels: seq<Level>, side: Side, quantity: nat, limit: Option<Price>) returns (matched: nat)
    requires quantity <= U64_MAX
    ensures matched == Min(quantity, Sum(Available, Reachable(side, limit, levels)))
  {
    hide Available, Within, Sum, Reachable;
    NoSlices(quantity);
    assert levels[..0] == [] && levels[0..] == levels;
    matched := 0;
    var i := 0;
    while i < |levels| && matched < quantity
      invariant i <= |levels|
      invariant Reachable(side, limit, levels) == levels[..i] + Reachable(side, limit, levels[i..])
      invariant matched == Min(quantity, Sum(Available, levels[..i]))
    {
      ReachableAt(side, limit, levels, i);
      if !Within(side, limit, levels[i].price) {
        return;
      }
      var needed := SatSub(quantity, matched);
      matched := Sat64(matched + Min(needed, Available(levels[i])));
      i := i + 1;
    }
    assert i == |levels| ==> Reachable(side, limit, levels[i..]) == [] by { NothingAhead(side, limit, levels[i..]); }
    NoSlices(quantity);
    SumAppend(Available, levels[..i], Reachable(side, limit, levels[i..]));
  }

  lemma NothingAhead(side: Side, limit: Option<Price>, levels: seq<Level>)
    ensures levels == [] ==> Reachable(side, limit, levels) == []
  {
  }

  function WorstOf(slices: seq<Slice>, best: Price): Price {
    if slices == [] then best else slices[|slices| - 1].price
  }

  /** Impact of a market order: what it would consume, and the depth of the whole side. */
  method MarketImpact(levels: seq<Level>, side: Side, quantity: nat) returns (impact: Impact)
    requires quantity <= U64_MAX
    ensures quantity == 0 || levels == [] ==> impact == Impact(0.0, 0, 0, 0.0, 0, 0)
    ensures quantity > 0 && levels != [] ==>
              var slices := Slices(levels, quantity);
              && impact.consumed == |slices|
              && impact.worst == WorstOf(slices, levels[0].price)
              && impact.slippage == (if side.Buy? then SatSub(impact.worst, levels[0].price) else SatSub(levels[0].price, impact.worst))
              && impact.basisPoints == BasisPoints(impact.slippage, levels[0].price)
              && impact.average == Average(Sat128(Sum(Value, slices)), Sum(Quantities, slices))
              && impact.available == Sat64(Sum(Available, levels))
  {
    if quantity == 0 || levels == [] {
      return Impact(0.0, 0, 0, 0.0, 0, 0);
    }
    hide Available, Slices, Sum, Value, Sat128, Worth, Average, BasisPoints;
    NoSlices(quantity);
    assert levels[..0] == [];
    var best := levels[0].price;
    var remaining, cost, filled, available, worst, consumed := quantity, 0, 0, 0, best, 0;
    ghost var slices: seq<Slice> := [];
    for i := 0 to |levels|
      invariant slices == Slices(levels[..i], quantity)
      invariant filled == Min(quantity, Sum(Available, levels[..i]))
      invariant remaining == quantity - filled
      invariant cost == Sat128(Sum(Value, slices))
      invariant consumed == |slices|
      invariant worst == WorstOf(slices, best)
      invariant available == Sat64(Sum(Available, levels[..i]))
    {
      var price, here := levels[i].price, Available(levels[i]);
      SlicesMore(levels, i, quantity);
      if here != 0 {
        available := Sat64(available + here);
        if remaining > 0 {
          var take := Min(remaining, here);
          SliceAdded(slices, price, take);
          slices := slices + [Slice(price, take)];
          consumed := consumed + 1;
          cost := Sat128(cost + Worth(price, take));
          filled := Sat64(filled + take);
          worst := price;
          remaining := SatSub(remaining, take);
        }
      }
    }
    assert levels[..|levels|] == levels;
    SlicesTotal(levels, quantity);
    var slippage := if side.Buy? then SatSub(worst, best) else SatSub(best, worst);
    impact := Impact(Average(cost, filled), worst, slippage, BasisPoints(slippage, best), consumed, available);
  }

  // ---- Comparison with the sweep ----

  /** Everything resting can be drawn: no reserve that does not replenish itself. */
  predicate Plain(levels: seq<Level>) {
    forall l <- levels :: Sum(Total, l.orders) <= U64_MAX && forall o <- l.orders :: Drawable(o) == Total(o)
  }

  /** The per-level quantities of a walk, levels without a trade left out. */
  function SweepSlices(levels: seq<Level>, visits: seq<Visit>): seq<Slice>
    requires |visits| <= |levels|
  {
    if visits == [] then []
    else Taken(levels[0].price, visits[0].executed) + SweepSlices(levels[1..], visits[1..])
  }

  lemma PlainDepth(l: Level)
    requires Sum(Total, l.orders) <= U64_MAX && forall o <- l.orders :: Drawable(o) == Total(o)
    ensures Sum(Drawable, l.orders) == Available(l)
  {
    SumSame(Drawable, Total, l.orders);
  }

  /** Without self-trade prevention and lots, and when everything resting can be drawn, the
      simulated slices are exactly what the sweep executes at each level within its limit. */
  lemma {:induction false} SimulationExact(cfg: Config, tk: Taker, levels: seq<Level>, quantity: nat)
    requires !Active(cfg.stp, tk.user) && LotSize(cfg) <= 1 && !tk.postOnly
    requires Plain(levels)
    ensures SweepSlices(levels, Sweep(cfg, tk, levels, BaseQty(quantity)).visits)
            == Slices(Reachable(tk.side, tk.limit, levels), quantity)
  {
    hide Sweep, LotSize, Within, Available, Active;
    if levels == [] || !Within(tk.side, tk.limit, levels[0].price) || quantity == 0 {
      PlainStop(cfg, tk, levels, quantity);
    } else {
      PlainStep(cfg, tk, levels, quantity);
      assert forall l <- levels[1..] :: l in levels;
      SimulationExact(cfg, tk, levels[1..], quantity - Min(quantity, Available(levels[0])));
      assert Reachable(tk.side, tk.limit, levels)[1..] == Reachable(tk.side, tk.limit, levels[1..]);
    }
  }

  lemma PlainStop(cfg: Config, tk: Taker, levels: seq<Level>, quantity: nat)
    requires levels == [] || !Within(tk.side, tk.limit, levels[0].price) || quantity == 0
    ensures Sweep(cfg, tk, levels, BaseQty(quantity)).visits == []
  {
  }

  lemma PlainStep(cfg: Config, tk: Taker, levels: seq<Level>, quantity: nat)
    requires !Active(cfg.stp, tk.user) && LotSize(cfg) <= 1 && !tk.postOnly
    requires Plain(levels) && levels != [] && Within(tk.side, tk.limit, levels[0].price) && quantity > 0
    ensures var take := Min(quantity, Available(levels[0]));
            var visits := Sweep(cfg, tk, levels, BaseQty(quantity)).visits;
            && visits != [] && visits[0].executed == take
            && visits[1..] == Sweep(cfg, tk, levels[1..], BaseQty(quantity - take)).visits
  {
    hide Sweep, VisitLevel, LevelCap, LotSize, Reach, Decide, Within, Available, Active;
    SweepStep(cfg, tk, levels, BaseQty(quantity));
    CapHere(cfg, levels[0].price, quantity);
    VisitExecutes(cfg, tk, levels[0], quantity);
    assert levels[0] in levels;
    PlainDepth(levels[0]);
    ReachAll(cfg, tk.user, levels[0].orders);
    PlainStop(cfg, tk, levels[1..], 0);
  }

  lemma ReachAll(cfg: Config, user: User, orders: seq<Order>)
    requires !Active(cfg.stp, user)
    ensures Reach(cfg, user, orders) == Sum(Drawable, orders) && Decide(orders, user, cfg.stp).NoConflict?
  {
  }

  lemma CapHere(cfg: Config, price: Price, quantity: nat)
    requires LotSize(cfg) <= 1
    ensures LevelCap(BaseQty(quantity), price, LotSize(cfg)) == quantity
  {
  }

  lemma {:induction false} SweepSlicesTotal(levels: seq<Level>, visits: seq<Visit>)
    requires |visits| <= |levels|
    ensures Sum(Quantities, SweepSlices(levels, visits)) == Sum(ExecutedAt, visits)
    decreases |visits|
  {
    if visits != [] {
      SweepSlicesTotal(levels[1..], visits[1..]);
      TakenSum(levels[0].price, visits[0].executed, SweepSlices(levels[1..], visits[1..]));
    }
  }

  /** Then the peeked quantity is the executed total, within any limit. */
  lemma PeekExact(cfg: Config, tk: Taker, levels: seq<Level>, quantity: nat)
    requires !Active(cfg.stp, tk.user) && LotSize(cfg) <= 1 && !tk.postOnly
    requires Plain(levels)
    ensures TotalExecuted(Sweep(cfg, tk, levels, BaseQty(quantity)))
            == Min(quantity, Sum(Available, Reachable(tk.side, tk.limit, levels)))
  {
    hide Sweep;
    var w := Sweep(cfg, tk, levels, BaseQty(quantity));
    SimulationExact(cfg, tk, levels, quantity);
    SweepSlicesTotal(levels, w.visits);
    SlicesTotal(Reachable(tk.side, tk.limit, levels), quantity);
  }

  lemma {:induction false} NoLimit(side: Side, levels: seq<Level>)
    ensures Reachable(side, None, levels) == levels
  {
    if levels != [] {
      NoLimit(side, levels[1..]);
    }
  }

  predicate Trading(v: Visit) {
    v.executed > 0
  }

  /** The slices of a walk: one for each level it trades at, worth what it pays, the last at
      the price of the last trade. */
  lemma {:induction false} SweepSlicesLaws(cfg: Config, tk: Taker, levels: seq<Level>, visits: seq<Visit>)
    requires AreVisits(cfg, tk, levels, visits)
    ensures var slices, trades := SweepSlices(levels, visits), Trades(levels, visits);
            && |slices| == |Filter(Trading, visits)|
            && Sum(Due, slices) == Cost(levels, visits)
            && (slices == [] <==> trades == [])
            && (slices != [] ==> slices[|slices| - 1].price == trades[|trades| - 1].price)
    decreases |visits|
  {
    hide VisitLevel, Spend;
    if visits != [] {
      VisitsTail(cfg, tk, levels, visits);
      SweepSlicesLaws(cfg, tk, levels[1..], visits[1..]);
      var price, v := levels[0].price, visits[0];
      VisitExecutes(cfg, tk, levels[0], v.cap);
      assert IsVisit(cfg, tk, levels[0], v);
      assert v.fills == [] <==> v.executed == 0;
      TakenDue(price, v.executed, SweepSlices(levels[1..], visits[1..]));
      LastTrade(price, v.fills);
    }
  }

  lemma TakenDue(price: Price, take: nat, rest: seq<Slice>)
    ensures Sum(Due, Taken(price, take) + rest) == price * take + Sum(Due, rest)
  {
    if take == 0 {
      assert [] + rest == rest;
    } else {
      SumCons(Due, Slice(price, take), rest);
    }
  }

  lemma LastTrade(price: Price, fills: seq<Fill>)
    ensures |Priced(price, fills)| == |fills|
    ensures fills != [] ==> Priced(price, fills)[|fills| - 1].price == price
  {
  }

  /** A market order: the simulation lists exactly its per-level quantities, as many as the
      levels it trades at, worth exactly what it pays, the last at the price of its last trade. */
  lemma MarketOrderForeseen(cfg: Config, tk: Taker, levels: seq<Level>, quantity: nat)
    requires !Active(cfg.stp, tk.user) && LotSize(cfg) <= 1 && !tk.postOnly && tk.limit.None?
    requires Plain(levels)
    ensures var w := Sweep(cfg, tk, levels, BaseQty(quantity));
            var slices, trades := Slices(levels, quantity), Trades(levels, w.visits);
            && SweepSlices(levels, w.visits) == slices
            && TotalExecuted(w) == Min(quantity, Sum(Available, levels))
            && w.stop == BaseQty(quantity - TotalExecuted(w))
            && |slices| == |Filter(Trading, w.visits)|
            && Sum(Due, slices) == Cost(levels, w.visits)
            && (slices == [] <==> trades == [])
            && (trades != [] ==> WorstOf(slices, levels[0].price) == trades[|trades| - 1].price)
  {
    hide Sweep;
    NoLimit(tk.side, levels);
    SimulationExact(cfg, tk, levels, quantity);
    PeekExact(cfg, tk, levels, quantity);
    BaseAccounts(cfg, tk, levels, quantity);
    SweepVisits(cfg, tk, levels, BaseQty(quantity));
    SweepSlicesLaws(cfg, tk, levels, Sweep(cfg, tk, levels, BaseQty(quantity)).visits);
  }

  // ---- The average price ----

  predicate PricedBetween(slices: seq<Slice>, low: Price, high: Price) {
    forall i :: 0 <= i < |slices| ==> low <= slices[i].price <= high
  }

  lemma SpendLaws(low: Price, price: Price, high: Price, a: nat, b: nat)
    requires low <= price <= high
    ensures Spend(low, a) <= Spend(price, a) <= Spend(high, a)
    ensures Spend(low, a + b) == Spend(low, a) + Spend(low, b)
    ensures Spend(high, a + b) == Spend(high, a) + Spend(high, b)
  {
    TimesMonotone(a, low, price);
    TimesMonotone(a, price, high);
  }

  lemma {:induction false} DueBetween(slices: seq<Slice>, low: Price, high: Price)
    requires PricedBetween(slices, low, high)
    ensures Spend(low, Sum(Quantities, slices)) <= Sum(Due, slices) <= Spend(high, Sum(Quantities, slices))
  {
    if slices == [] {
    } else {
      hide Spend;
      var s := slices[0];
      assert s in slices && forall x <- slices[1..] :: x in slices;
      DueBetween(slices[1..], low, high);
      SpendLaws(low, s.price, high, s.quantity, Sum(Quantities, slices[1..]));
    }
  }

  /** A total that fits 128 bits is computed exactly: no product wraps, no sum saturates. */
  lemma {:induction false} CostExact(slices: seq<Slice>)
    requires Sum(Due, slices) <= U128_MAX
    ensures Sat128(Sum(Value, slices)) == Sum(Value, slices) == Sum(Due, slices)
  {
    hide Spend;
    if slices != [] {
      CostExact(slices[1..]);
      RemainderSmall(Due(slices[0]));
    }
  }

  lemma RemainderSmall(n: nat)
    requires n <= U128_MAX
    ensures n % (U128_MAX + 1) == n
  {
    DivUnique(n, U128_MAX + 1, 0, n);
  }

  /** The slices come in price order, so the first and the last bound the others. */
  lemma {:induction false} SlicesOrdered(side: Side, levels: seq<Level>, quantity: nat)
    requires BestFirst(side, levels) && levels != []
    ensures var slices := Slices(levels, quantity);
            forall s <- slices :: !Better(side, s.price, levels[0].price) && !Better(side, WorstOf(slices, levels[0].price), s.price)
  {
    hide Available;
    if quantity != 0 {
      var take := Min(quantity, Available(levels[0]));
      var first, rest := Taken(levels[0].price, take), Slices(levels[1..], quantity - take);
      assert Slices(levels, quantity) == first + rest;
      assert forall s <- first + rest :: s in first || s in rest;
      if |levels| > 1 {
        assert Better(side, levels[0].price, levels[1].price);
        SlicesOrdered(side, levels[1..], quantity - take);
        assert rest != [] ==> rest[|rest| - 1] in rest;
      }
    }
  }

  /** What a caller can check before the call: where the dearest price times the quantity
      fits 128 bits, the reported average is the exact one and lies between the best price and
      the worst one. */
  lemma AverageBounded(side: Side, levels: seq<Level>, quantity: nat, top: Price)
    requires BestFirst(side.Opposite(), levels) && forall l <- levels :: l.price <= top
    requires top * quantity <= U128_MAX && Slices(levels, quantity) != []
    ensures var slices := Slices(levels, quantity);
            var filled, best, worst := Sum(Quantities, slices), levels[0].price, WorstOf(slices, levels[0].price);
            && filled > 0
            && Average(Sat128(Sum(Value, slices)), filled) == Sum(Due, slices) as real / filled as real
            && var average := Average(Sat128(Sum(Value, slices)), filled);
               if side.Buy? then best as real <= average <= worst as real else worst as real <= average <= best as real
  {
    hide Available, Slices, Value, Worth, Due, Quantities;
    NoSlices(quantity);
    var slices := Slices(levels, quantity);
    var filled, best, worst := Sum(Quantities, slices), levels[0].price, WorstOf(slices, levels[0].price);
    SlicesOrdered(side.Opposite(), levels, quantity);
    SlicesPriced(levels, quantity, top);
    SomethingTaken(levels, quantity);
    SlicesTotal(levels, quantity);
    DueBetween(slices, 0, top);
    TimesMonotone(top, filled, quantity);
    CostExact(slices);
    var low, high := if side.Buy? then best else worst, if side.Buy? then worst else best;
    DueBetween(slices, low, high);
    Quotient(low, Sum(Due, slices), high, filled);
  }

  lemma Quotient(low: nat, n: nat, high: nat, d: nat)
    requires d > 0 && low * d <= n <= high * d
    ensures low as real <= n as real / d as real <= high as real
  {
    var q := n as real / d as real;
    assert q * d as real == n as real;
    assert low as real * d as real == (low * d) as real && high as real * d as real == (high * d) as real;
  }

  lemma {:induction false} SlicesPriced(levels: seq<Level>, quantity: nat, top: Price)
    requires forall i :: 0 <= i < |levels| ==> levels[i].price <= top
    ensures PricedBetween(Slices(levels, quantity), 0, top)
  {
    hide Available;
    if levels != [] && quantity != 0 {
      SlicesPriced(levels[1..], quantity - Min(quantity, Available(levels[0])), top);
    }
  }

  lemma {:induction false} SomethingTaken(levels: seq<Level>, quantity: nat)
    ensures Slices(levels, quantity) != [] ==> Sum(Quantities, Slices(levels, quantity)) > 0
  {
    hide Available;
    if levels != [] && quantity != 0 {
      var take := Min(quantity, Available(levels[0]));
      SomethingTaken(levels[1..], quantity - take);
      TakenSum(levels[0].price, take, Slices(levels[1..], quantity - take));
    }
  }

  /** The side can fill the quantity if and only if the market order fills it. */
  lemma CanFillExactly(cfg: Config, tk: Taker, levels: seq<Level>, quantity: nat)
    requires !Active(cfg.stp, tk.user) && LotSize(cfg) <= 1 && !tk.postOnly && tk.limit.None?
    requires Plain(levels) && quantity <= U64_MAX
    ensures quantity <= Sat64(Sum(Available, levels)) <==> TotalExecuted(Sweep(cfg, tk, levels, BaseQty(quantity))) == quantity
  {
    hide Sweep;
    MarketOrderForeseen(cfg, tk, levels, quantity);
  }

  /** In any configuration the peeked quantity is never below what the sweep executes. */
  lemma {:induction false} PeekNeverShort(cfg: Config, tk: Taker, levels: seq<Level>, stop: StopCondition)
    requires stop.BaseQty? && forall l <- levels :: Sum(Total, l.orders) <= U64_MAX
    ensures TotalExecuted(Sweep(cfg, tk, levels, stop)) <= Min(stop.remaining, Sum(Available, Reachable(tk.side, tk.limit, levels)))
  {
    hide Sweep, VisitLevel, LevelCap, LotSize, Reach;
    BaseAccounts(cfg, tk, levels, stop.remaining);
    var w := Sweep(cfg, tk, levels, stop);
    SweepStep(cfg, tk, levels, stop);
    if w.visits != [] {
      var v := w.visits[0];
      assert levels[0] in levels && forall l <- levels[1..] :: l in levels;
      if !tk.postOnly {
        VisitExecutes(cfg, tk, levels[0], v.cap);
        ReachBelow(cfg, tk.user, levels[0].orders);
      }
      var rest := Reachable(tk.side, tk.limit, levels[1..]);
      SumCons(Available, levels[0], rest);
      var next := StopAfter(tk, stop, v, levels[0].price);
      PeekNeverShort(cfg, tk, levels[1..], next);
      SumCons(ExecutedAt, v, Sweep(cfg, tk, levels[1..], next).visits);
      assert Sum(ExecutedAt, [v]) == v.executed;
    }
  }

  lemma ReachBelow(cfg: Config, user: User, orders: seq<Order>)
    requires Sum(Total, orders) <= U64_MAX
    ensures Reach(cfg, user, orders) <= Sum(Total, orders)
  {
    hide Sum, Filter, FirstOwned;
    SumBelow(Drawable, Total, orders);
    FilterSum(Drawable, Mine(user), orders);
    VisibleAhead(orders, FirstOwned(orders, user));
    KeptBelow(orders, user);
  }

  lemma VisibleAhead(orders: seq<Order>, k: nat)
    requires k <= |orders|
    ensures Sum(Visible, orders[..k]) <= Sum(Total, orders)
  {
    hide Sum;
    SumBelow(Visible, Total, orders[..k]);
    SumAppend(Total, orders[..k], orders[k..]);
    assert orders == orders[..k] + orders[k..];
  }

  lemma KeptBelow(orders: seq<Order>, user: User)
    ensures Sum(Drawable, Filter(Not(Mine(user)), orders)) <= Sum(Drawable, orders)
  {
    FilterSum(Drawable, Not(Mine(user)), orders);
  }
}
