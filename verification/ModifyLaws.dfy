/** A modify is atomic: rejected, it changes nothing; accepted, it is a cancel and an add. */
module ModifyLaws {
  import opened Types
  import opened Seqs
  import opened Orders
  import opened Levels
  import opened Stp
  import opened Effects
  import opened Matching
  import opened VisitLaws
  import opened SelfCross
  import opened Engine
  import opened SideLaws
  import opened CoreLaws
  import opened OpLaws
  import opened CrossLaws
  import opened SubmitLaws

  /** Taking an own order out of the way cannot make the walk reach another one. */
  lemma {:induction false} ReachesLess(tk: Taker, side: Side, levels: seq<Level>, price: Price, queue: seq<Order>, r: nat)
    requires SideOk(side, levels) && side == tk.side.Opposite()
    requires !NoneOwned(QueueAt(levels, price), tk.user)
    requires Reaches(tk, PutQueue(levels, price, queue), r)
    ensures Reaches(tk, levels, r)
    decreases |levels|
  {
    SideTail(side, levels);
    if levels[0].price == price {
      if queue == [] {
        assert levels[1] in levels[1..];
      }
    } else if NoneOwned(levels[0].orders, tk.user) {
      ReachesLess(tk, side, levels[1..], price, queue, SatSub(r, Executed(r, levels[0].orders)));
    }
  }

  /** The checks a modify runs before it cancels the original. */
  predicate PassesChecks(c: Core, o: Order, now: nat) {
    && Validate(c, o, now).None?
    && !(StopsTaker(c.cfg.stp, o.tag.user) && Reaches(TakerOf(o), SideOf(c, o.tag.side.Opposite()), TotalQuantity(o)))
  }

  /** The order `o` replaces the resting order of the same id and user. */
  ghost predicate Replaces(c: Core, r: map<Id, Tag>, o: Order) {
    && Good(c, r)
    && !c.killed
    && o.tag.id in r
    && r[o.tag.id].user == o.tag.user
    && Proper(o)
    && !Immediate(o)
  }

  /** Cancelling the original only takes levels away from its side. */
  lemma CutFacts(c: Core, r: map<Id, Tag>, o: Order, now: nat)
    requires Replaces(c, r, o)
    ensures var cut := Cancel(c, o.tag.id); var t := r[o.tag.id];
            && SideOf(cut.core, t.side.Opposite()) == SideOf(c, t.side.Opposite())
            && (exists queue :: SideOf(cut.core, t.side) == PutQueue(SideOf(c, t.side), t.price, queue))
            && !NoneOwned(QueueAt(SideOf(c, t.side), t.price), o.tag.user)
            && (forall l <- SideOf(cut.core, t.side) :: exists m :: m in SideOf(c, t.side) && m.price == l.price)
            && o.tag.id !in cut.core.locations
            && SameSetup(c, cut.core)
  {
    var id, t := o.tag.id, r[o.tag.id];
    Found(c, r, id);
    CancelMoves(c, r, id);
    var cut := Cancel(c, id);
    var queue := Filter(Not(HasId(id)), QueueAt(SideOf(c, t.side), t.price));
    assert SideOf(cut.core, t.side) == PutQueue(SideOf(c, t.side), t.price, queue);
    QueueFacts(t.side, SideOf(c, t.side), t.price);
    FilterFits(Not(HasId(id)), QueueAt(SideOf(c, t.side), t.price), t.side, t.price);
    PutOk(t.side, SideOf(c, t.side), t.price, queue);
    FilterMember(HasId(id), QueueAt(SideOf(c, t.side), t.price), GetOrder(c, id).value);
    FoldPair(LocateStep, c.locations, cut.effects[0], cut.effects[1]);
  }

  /** The verdicts of the checks survive the cancel. */
  lemma ChecksSurvive(c: Core, r: map<Id, Tag>, o: Order, now: nat)
    requires Replaces(c, r, o) && PassesChecks(c, o, now)
    ensures PassesChecks(Cancel(c, o.tag.id).core, o, now)
  {
    hide Cancel, Good, Moves;
    var cut, t, opposite := Cancel(c, o.tag.id), r[o.tag.id], o.tag.side.Opposite();
    CutFacts(c, r, o, now);
    CancelMoves(c, r, o.tag.id);
    assert CoreOk(c) && CoreOk(cut.core) by { UnfoldGood(c, r); UnfoldMoves(c, r, cut.effects, cut.core); UnfoldGood(cut.core, Register(r, cut.effects)); }
    var before, after := SideOf(c, opposite), SideOf(cut.core, opposite);
    assert WillCross(cut.core, o.tag.price, o.tag.side) ==> WillCross(c, o.tag.price, o.tag.side) by {
      if after != [] && before != after {
        var m :| m in before && m.price == after[0].price;
        assert before[0] != m ==> m in before[1..];
      }
    }
    if Reaches(TakerOf(o), after, TotalQuantity(o)) && t.side == opposite {
      var queue :| after == PutQueue(before, t.price, queue);
      ReachesLess(TakerOf(o), opposite, before, t.price, queue, TotalQuantity(o));
    }
  }

  /** After the checks the sweep does not stop the taker and the re-add succeeds if and only
      if the target level has room. */
  lemma ReaddSucceedsExactly(c: Core, r: map<Id, Tag>, o: Order, now: nat)
    requires Good(c, r) && !c.killed && Proper(o) && !Immediate(o)
    requires o.tag.id !in c.locations && PassesChecks(c, o, now)
    ensures Add(c, o, now).reply.Ok? <==> Room(SideOf(c, o.tag.side), o)
    ensures Add(c, o, now).reply.Err? ==> Add(c, o, now).core == c
  {
    hide Match, Validate, SetTotalRemaining, Good, Sweep, Reaches;
    var tk, q, side := TakerOf(o), TotalQuantity(o), o.tag.side;
    var levels := SideOf(c, side.Opposite());
    var m := Match(c, tk, BaseQty(q));
    assert CheckedTotal(o).Some? by { ValidTotal(c, o, now); }
    assert CoreOk(c) by { UnfoldGood(c, r); }
    if Headroom(c, o) {
      assert Refusal(c, o, now).None?;
      MatchReplies(c, o, now);
      MatchResultLaws(c, tk, BaseQty(q));
      assert !MatchWalk(c, tk, BaseQty(q)).stpCancelled by {
        if StopsTaker(c.cfg.stp, tk.user) {
          ReachesExactly(c.cfg, tk, levels, q);
        } else {
          NeverStopped(c.cfg, tk, levels, BaseQty(q));
        }
      }
      MatchKeepsOwnSide(c, tk, BaseQty(q));
      ResidualConserved(o, m.reply.value.result.remaining);
      if !WillCross(c, o.tag.price, side) {
        NoCrossNoMatch(c, o);
        QueueFacts(side, SideOf(c, side), o.tag.price);
      }
    }
  }

  lemma ValidTotal(c: Core, o: Order, now: nat)
    requires Validate(c, o, now).None?
    ensures CheckedTotal(o).Some?
  {
  }

  /** A modify of a resting order is atomic exactly when the target level, without the
      original, has room: then a rejection changes nothing. Without room a modify that
      passed its checks is rejected after the original has gone. */
  lemma ModifyAtomicExactly(c: Core, r: map<Id, Tag>, o: Order, now: nat)
    requires Replaces(c, r, o)
    ensures var x, cut := Modify(c, o, now), Cancel(c, o.tag.id);
            if !PassesChecks(c, o, now) then x.reply.Err? && x.core == c && x.effects == []
            else
              && x.core == Add(cut.core, o, now).core
              && x.effects == cut.effects + Add(cut.core, o, now).effects
              && (x.reply.Ok? <==> Room(SideOf(cut.core, o.tag.side), o))
              && (x.reply.Err? ==> GetOrder(x.core, o.tag.id).None?)
  {
    hide Cancel, Add, Good, Validate, Moves;
    if PassesChecks(c, o, now) {
      var cut := Cancel(c, o.tag.id);
      CutFacts(c, r, o, now);
      ChecksSurvive(c, r, o, now);
      CancelMoves(c, r, o.tag.id);
      assert Good(cut.core, Register(r, cut.effects)) by { UnfoldMoves(c, r, cut.effects, cut.core); }
      ReaddSucceedsExactly(cut.core, Register(r, cut.effects), o, now);
    }
  }

  /** The public modifies of a resting order: same id and user, never immediate. */
  lemma RevisedReplaces(c: Core, r: map<Id, Tag>, u: Update, now: nat)
    requires Good(c, r) && !c.killed && Sized(u) && GetOrder(c, u.id).Some?
    ensures Replaces(c, r, Revised(GetOrder(c, u.id).value, u))
  {
    FoundFits(c, r, u.id);
  }

  /** A rejected price, price-and-quantity or replace update leaves queues and indexes as
      they were, provided the target level has room. */
  lemma RejectedUpdateChangesNothing(c: Core, r: map<Id, Tag>, u: Update, now: nat)
    requires Good(c, r) && Sized(u)
    requires u.UpdatePrice? || u.UpdatePriceAndQuantity? || u.Replace?
    requires GetOrder(c, u.id).Some? ==>
               var o := Revised(GetOrder(c, u.id).value, u); Room(SideOf(Cancel(c, u.id).core, o.tag.side), o)
    requires UpdateOrder(c, u, now).reply.Err?
    ensures UpdateOrder(c, u, now).core == c && UpdateOrder(c, u, now).effects == []
  {
    hide Cancel, Add, Good, Modify;
    if !c.killed && GetOrder(c, u.id).Some? {
      var o := Revised(GetOrder(c, u.id).value, u);
      FoundFits(c, r, u.id);
      RevisedReplaces(c, r, u, now);
      ModifyAtomicExactly(c, r, o, now);
    }
  }
}
