/** Quantity is conserved by every submission. */
module SubmitLaws {
  import opened Types
  import opened Seqs
  import opened Orders
  import opened Stp
  import opened Effects
  import opened Matching
  import opened SweepLaws
  import opened BudgetLaws
  import opened Engine
  import opened SideLaws
  import opened CoreLaws
  import opened OpLaws
  import opened CrossLaws

  lemma {:induction false} PlaceQueue(side: Side, levels: seq<Level>, o: Order)
    requires SideOk(side, levels)
    ensures QueueAt(Place(side, levels, o), o.tag.price) == QueueAt(levels, o.tag.price) + [o]
    decreases |levels|
  {
    if levels != [] {
      SideTail(side, levels);
      if Better(side, o.tag.price, levels[0].price) {
        QueueFacts(side, levels, o.tag.price);
        if LevelAt(levels, o.tag.price).Some? {
          LevelAtMember(levels, o.tag.price);
        }
      } else if levels[0].price != o.tag.price {
        PlaceQueue(side, levels[1..], o);
      }
    }
  }

  /** What the sweep of a submission executes. */
  function ExecutedBy(c: Core, o: Order): nat {
    TotalExecuted(MatchWalk(c, TakerOf(o), BaseQty(TotalQuantity(o))))
  }

  /** An admitted order that comes to rest is found with exactly its unexecuted quantity. */
  lemma RestedOrder(c: Core, r: map<Id, Tag>, o: Order, now: nat)
    requires Good(c, r) && Proper(o)
    ensures var a := Add(c, o, now);
            ComesToRest(c, o, now) ==>
            && a.reply.Ok?
            && GetOrder(a.core, o.tag.id) == Some(a.reply.value)
            && a.reply.value == o.(visible := a.reply.value.visible, hidden := a.reply.value.hidden)
            && ExecutedBy(c, o) + Total(a.reply.value) == Total(o)
  {
    hide Match, MatchWalk, Validate, Headroom, SetTotalRemaining, Good, TotalExecuted;
    if ComesToRest(c, o, now) {
      var tk, q, side := TakerOf(o), TotalQuantity(o), o.tag.side;
      var m := Match(c, tk, BaseQty(q));
      var remaining := m.reply.value.result.remaining;
      var rest := Residual(o, remaining);
      MatchResultLaws(c, tk, BaseQty(q));
      ResidualConserved(o, remaining);
      assert Total(rest) == remaining && rest == o.(visible := rest.visible, hidden := rest.hidden);
      var a := Add(c, o, now);
      assert a.reply == Ok(rest);
      AddMoves(c, r, o, now);
      var r' := Register(r, a.effects);
      assert Good(a.core, r') by { UnfoldMoves(c, r, a.effects, a.core); }
      assert SideOk(side, SideOf(m.core, side)) by {
        UnfoldGood(c, r);
        MatchKeepsOwnSide(c, tk, BaseQty(q));
      }
      PlaceQueue(side, SideOf(m.core, side), rest);
      assert SideOf(a.core, side) == Place(side, SideOf(m.core, side), rest);
      assert a.core.locations == Locate(m.core.locations, Rest(m.core, rest).effects);
      FoldPair(LocateStep, m.core.locations, Rest(m.core, rest).effects[0], Rest(m.core, rest).effects[1]);
      assert o.tag.id in r' && r'[o.tag.id].price == o.tag.price && r'[o.tag.id].side == side by { UnfoldGood(a.core, r'); }
      Found(a.core, r', o.tag.id);
      FilterMember(HasId(o.tag.id), QueueAt(SideOf(a.core, side), o.tag.price), rest);
    }
  }

  /** Every submission conserves quantity: what executed and what rests is what was
      submitted, and a remainder is dropped only by an immediate order or a taker stopped by
      self-trade prevention. A full level turns away only a submission that traded nothing and
      changed nothing. */
  lemma SubmissionConserved(c: Core, r: map<Id, Tag>, o: Order, now: nat)
    requires Good(c, r) && Proper(o)
    ensures var a, executed := Add(c, o, now), ExecutedBy(c, o);
            if Refusal(c, o, now).Some? then a.core == c && a.effects == [] && a.reply.Err?
            else if ComesToRest(c, o, now) then
              a.reply.Ok? && GetOrder(a.core, o.tag.id) == Some(a.reply.value) && executed + Total(a.reply.value) == Total(o)
            else if a.reply == Err(LevelCapacity(o.tag.id)) then
              executed == 0 && a.core == c && a.effects == []
            else
              && GetOrder(a.core, o.tag.id).None?
              && executed <= Total(o)
              && (a.reply.Ok? ==> executed == Total(o))
              && (executed < Total(o) ==>
                    Immediate(o) || MatchWalk(c, TakerOf(o), BaseQty(TotalQuantity(o))).stpCancelled)
  {
    hide Good, Validate, Headroom, SetTotalRemaining, Sweep;
    if Refusal(c, o, now).None? {
      if ComesToRest(c, o, now) {
        RestedOrder(c, r, o, now);
      } else if Add(c, o, now).reply == Err(LevelCapacity(o.tag.id)) {
        FullLevelTurnsAway(c, r, o, now);
      } else {
        DroppedOrder(c, r, o, now);
      }
    }
  }

  lemma DroppedOrder(c: Core, r: map<Id, Tag>, o: Order, now: nat)
    requires Good(c, r) && Proper(o) && Refusal(c, o, now).None? && !ComesToRest(c, o, now)
    requires Add(c, o, now).reply != Err(LevelCapacity(o.tag.id))
    ensures var a, executed, w := Add(c, o, now), ExecutedBy(c, o), MatchWalk(c, TakerOf(o), BaseQty(TotalQuantity(o)));
            && GetOrder(a.core, o.tag.id).None?
            && executed <= Total(o)
            && (a.reply.Ok? ==> executed == Total(o))
            && (executed < Total(o) ==> Immediate(o) || w.stpCancelled)
  {
    hide Good, Match, MatchWalk, Validate, Headroom, SetTotalRemaining, TotalExecuted;
    var tk, q := TakerOf(o), TotalQuantity(o);
    var m, w := Match(c, tk, BaseQty(q)), MatchWalk(c, tk, BaseQty(q));
    MatchResultLaws(c, tk, BaseQty(q));
    assert CoreOk(c) by { UnfoldGood(c, r); }
    MatchReplies(c, o, now);
    MatchFresh(c, r, tk, BaseQty(q), o.tag.id);
    if m.reply.Ok? {
      ResidualConserved(o, m.reply.value.result.remaining);
    }
    assert Add(c, o, now).core == m.core;
  }

  lemma NoCrossNoMatch(c: Core, o: Order)
    requires CoreOk(c) && !WillCross(c, o.tag.price, o.tag.side)
    ensures var m := Match(c, TakerOf(o), BaseQty(TotalQuantity(o)));
            && m.core == c && m.effects == []
            && m.reply == Ok(MatchReply(MatchResult(TotalQuantity(o), [], []), false, false))
  {
    var tk, q := TakerOf(o), TotalQuantity(o);
    var levels := SideOf(c, o.tag.side.Opposite());
    assert MatchWalk(c, tk, BaseQty(q)) == Walk([], BaseQty(q), false, false);
    assert Ids(AllFilled([])) == [];
    assert forall l <- levels :: LevelOk(o.tag.side.Opposite(), l);
    FilterAll(Occupied, levels);
  }

  lemma MatchNeverFull(c: Core, tk: Taker, stop: StopCondition)
    ensures Match(c, tk, stop).reply.Err? ==> !Match(c, tk, stop).reply.error.LevelCapacity?
  {
    hide Sweep;
  }

  /** The headroom check before the sweep: an order that crosses never meets a full level
      after it traded. */
  lemma FullLevelTurnsAway(c: Core, r: map<Id, Tag>, o: Order, now: nat)
    requires Good(c, r) && Proper(o) && Refusal(c, o, now).None?
    requires Add(c, o, now).reply == Err(LevelCapacity(o.tag.id))
    ensures ExecutedBy(c, o) == 0 && Add(c, o, now).core == c && Add(c, o, now).effects == []
  {
    hide Good, Match, MatchWalk, Validate, WillCross, SetTotalRemaining, TotalExecuted;
    var tk, q, side := TakerOf(o), TotalQuantity(o), o.tag.side;
    var m := Match(c, tk, BaseQty(q));
    assert CoreOk(c) by { UnfoldGood(c, r); }
    MatchNeverFull(c, tk, BaseQty(q));
    MatchResultLaws(c, tk, BaseQty(q));
    MatchKeepsOwnSide(c, tk, BaseQty(q));
    var rest := Residual(o, m.reply.value.result.remaining);
    ResidualConserved(o, m.reply.value.result.remaining);
    assert !Room(SideOf(c, side), rest);
    NoCrossNoMatch(c, o);
    assert [] + Report(o.tag.id, []) == [];
  }

  /** How the sweep of an admitted limit order replies. */
  lemma MatchReplies(c: Core, o: Order, now: nat)
    requires CoreOk(c) && Refusal(c, o, now).None?
    ensures var q := TotalQuantity(o);
            var m, w := Match(c, TakerOf(o), BaseQty(q)), MatchWalk(c, TakerOf(o), BaseQty(q));
            && TotalExecuted(w) <= q
            && (m.reply.Err? ==> w.stpCancelled)
            && (m.reply.Ok? ==> m.reply.value.stpCancelled == w.stpCancelled && !m.reply.value.rejected)
  {
    hide Sweep, Validate, Headroom;
    var tk, levels, q := TakerOf(o), SideOf(c, o.tag.side.Opposite()), TotalQuantity(o);
    BaseAccounts(c.cfg, tk, levels, q);
    SweepStep(c.cfg, tk, levels, BaseQty(q));
    if tk.postOnly && levels != [] {
      PostOnlyClear(c, o, now, 0);
    } else {
      NotRejected(c.cfg, tk, levels, BaseQty(q));
    }
  }

  lemma {:induction false} NotRejected(cfg: Config, tk: Taker, levels: seq<Level>, stop: StopCondition)
    requires !tk.postOnly || levels == []
    ensures !Sweep(cfg, tk, levels, stop).rejected
  {
    hide Sweep, VisitLevel;
    SweepStep(cfg, tk, levels, stop);
    var w := Sweep(cfg, tk, levels, stop);
    if w.visits != [] && w.rejected {
      NotRejected(cfg, tk, levels[1..], StopAfter(tk, stop, w.visits[0], levels[0].price));
    }
  }

  // ---- What admission demands ----

  predicate OnTick(cfg: Config, price: Price) {
    cfg.tick.Some? && cfg.tick.value > 0 ==> price % cfg.tick.value == 0
  }

  /** Whole lots; an iceberg needs them in both tranches. */
  predicate OnLot(cfg: Config, o: Order) {
    cfg.lot.Some? && cfg.lot.value > 0 ==>
      if o.kind.Iceberg? then o.visible % cfg.lot.value == 0 && o.hidden % cfg.lot.value == 0
      else Total(o) % cfg.lot.value == 0
  }

  predicate InSize(cfg: Config, quantity: nat) {
    && (cfg.minSize.Some? ==> cfg.minSize.value <= quantity)
    && (cfg.maxSize.Some? ==> quantity <= cfg.maxSize.value)
  }

  /** Some level of the other side lies within the order's limit. */
  predicate Touches(c: Core, o: Order) {
    exists l :: l in SideOf(c, o.tag.side.Opposite()) && Within(o.tag.side, Some(o.tag.price), l.price)
  }

  /** The rules of admission, without the order in which they are checked. A fill-or-kill
      order must find its whole quantity in the sweep itself. */
  predicate Admissible(c: Core, o: Order, now: nat) {
    && !c.killed
    && Total(o) <= U64_MAX
    && o.tag.id !in c.locations
    && (c.cfg.stp != Off ==> o.tag.user != ANONYMOUS)
    && OnTick(c.cfg, o.tag.price)
    && OnLot(c.cfg, o)
    && InSize(c.cfg, Total(o))
    && !Expired(o.tif, now, c.close)
    && (o.kind.PostOnly? ==> !Touches(c, o))
    && (o.tif.Fok? ==> TotalExecuted(Sweep(c.cfg, TakerOf(o).(postOnly := false), SideOf(c, o.tag.side.Opposite()), BaseQty(Total(o)))) == Total(o))
    && (!Immediate(o) && Touches(c, o) ==> Sum(Total, QueueAt(SideOf(c, o.tag.side), o.tag.price)) + Total(o) <= U64_MAX)
  }

  lemma TouchesExactly(c: Core, o: Order)
    requires CoreOk(c)
    ensures WillCross(c, o.tag.price, o.tag.side) <==> Touches(c, o)
  {
    var side := o.tag.side.Opposite();
    var levels := SideOf(c, side);
    if l :| l in levels && Within(o.tag.side, Some(o.tag.price), l.price) {
      SideTail(side, levels);
      assert levels[0] != l ==> l in levels[1..];
    }
    if levels != [] {
      assert levels[0] in levels;
    }
  }

  lemma LotExactly(cfg: Config, o: Order)
    requires Proper(o) && Total(o) <= U64_MAX
    ensures (cfg.lot.Some? && LotError(cfg.lot.value, o).Some?) <==> !OnLot(cfg, o)
  {
  }

  lemma FillableExactly(c: Core, o: Order)
    requires Proper(o) && Total(o) <= U64_MAX
    ensures Fillable(c, o) < TotalQuantity(o) <==>
              TotalExecuted(Sweep(c.cfg, TakerOf(o).(postOnly := false), SideOf(c, o.tag.side.Opposite()), BaseQty(Total(o)))) != Total(o)
  {
    hide Sweep, FokWalk;
    var tk, levels := TakerOf(o).(postOnly := false), SideOf(c, o.tag.side.Opposite());
    FokExact(c.cfg, tk, levels, Total(o));
    BaseAccounts(c.cfg, tk, levels, Total(o));
  }

  /** An order is admitted if and only if it meets every rule. */
  lemma AdmittedExactly(c: Core, o: Order, now: nat)
    requires CoreOk(c) && Proper(o)
    ensures Refusal(c, o, now).None? <==> Admissible(c, o, now)
  {
    hide Sweep, FokWalk, Fillable, WillCross, Touches, LotError, OnLot, QueueAt, Expired, TotalExecuted;
    if Total(o) <= U64_MAX {
      TouchesExactly(c, o);
      LotExactly(c.cfg, o);
      FillableExactly(c, o);
    }
  }
}
