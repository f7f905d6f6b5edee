/** Why a fill-or-kill submission must hold the write side: with only the read side, another
    thread empties a level between the dry run and the sweep, and half the order fills. */
module GateExample {
  import opened Types
  import opened Seqs
  import opened Orders
  import opened Stp
  import opened Effects
  import opened Matching
  import opened VisitLaws
  import opened Engine
  import opened Gate
  import opened CornerCases

  function Ask(id: Id, price: Price): Order { Limit(id, 1, Sell, price, 10) }
  function Shelf(id: Id, price: Price): Level { Level(price, [Ask(id, price)]) }
  function Whole(): Order { Order(Tag(9, 2, Buy, 101), Fok, Standard, 20, 0) }

  function Both(): Core {
    Core(Plain(false), [], [Shelf(1, 100), Shelf(2, 101)], map[1 := Location(100, Sell), 2 := Location(101, Sell)], false, None)
  }

  function Half(): Core {
    Core(Plain(false), [], [Shelf(1, 100)], map[1 := Location(100, Sell)], false, None)
  }

  lemma DepthAt(id: Id, price: Price, needed: nat)
    requires needed >= 10 && price <= 101
    ensures LookAt(Plain(false), Probe(Whole()), Shelf(id, price), needed) == Glance(10, true)
  {
    var o := Ask(id, price);
    SumCons(Drawable, o, []);
    assert [o] + [] == [o];
  }

  lemma BlowAt()
    ensures var blow := StrikeAt(Plain(false), TakerOf(Whole()), Shelf(1, 100), BaseQty(20));
            blow.Hit? && blow.more && blow.visit.executed == 10 && blow.stop == BaseQty(10)
  {
    var o, tk := Ask(1, 100), TakerOf(Whole());
    hide Reach, Decide;
    SumCons(Drawable, o, []);
    assert [o] + [] == [o];
    VisitExecutes(Plain(false), tk, Shelf(1, 100), 20);
    assert Reach(Plain(false), tk.user, [o]) == 10 && !VisitLevel(Plain(false), tk, Shelf(1, 100), 20).halts by { DepthAt(1, 100, 20); ReachHere(); }
  }

  lemma ReachHere()
    ensures Reach(Plain(false), 2, [Ask(1, 100)]) == 10
    ensures !VisitLevel(Plain(false), TakerOf(Whole()), Shelf(1, 100), 20).halts
  {
    SumCons(Drawable, Ask(1, 100), []);
    assert [Ask(1, 100)] + [] == [Ask(1, 100)];
  }

  function Checked(): State {
    State(Both(), {1}, None, map[1 := Sweeping(Whole(), None, BaseQty(20), [], Both())])
  }

  /** The dry run finds twenty. */
  lemma DryRun() returns (steps: seq<ThreadStep>)
    ensures |steps| == 4
    ensures Execute(false, Initial(Both()), steps) == Checked()
  {
    hide LookAt, Execute;
    var o, c := Whole(), Both();
    steps := [Submit(1, o), Look(1), Look(1), Look(1)];
    var s0 := Initial(c);
    var s1 := Do(false, s0, steps[0]);
    assert s1.threads[1] == Checking(o, None, 20, 0, c, 0);
    DepthAt(1, 100, 20);
    var s2 := Do(false, s1, steps[1]);
    assert s2.threads[1] == Checking(o, Some(100), 10, 10, c, 1);
    DepthAt(2, 101, 10);
    assert c.asks[1..] == [Shelf(2, 101)];
    var s3 := Do(false, s2, steps[2]);
    assert s3.threads[1] == Checking(o, Some(101), 0, 20, c, 2);
    assert c.asks[1..][1..] == [];
    var s4 := Do(false, s3, steps[3]);
    assert s4 == Checked();
    Steps(s0, s1, s2, s3, s4, steps);
    assert Execute(false, s4, steps[4..]) == s4 by { NoSteps(s4, steps[4..]); }
  }

  lemma LastStrike(s: State, v: Visit)
    requires 1 in s.threads && s.threads[1] == Sweeping(Whole(), Some(100), BaseQty(10), [v], Both())
    requires s.core.asks == [Level(100, v.orders)] && v.executed == 10
    ensures 1 in Do(false, s, Strike(1)).threads && Do(false, s, Strike(1)).threads[1] == Finished(Whole(), 10)
  {
    hide StrikeAt, Settle, WalkEffects, AllFilled, FilledEffects, Prune;
    var levels := Facing(s.core, Whole());
    assert levels == s.core.asks && levels[1..] == [];
    assert Beyond(Sell, levels[1..], Some(100)) == [];
    assert Beyond(Sell, levels, Some(100)) == [];
    SumCons(ExecutedAt, v, []);
    assert [v] + [] == [v];
    assert Sum(ExecutedAt, [v]) == 10;
  }

  /** A cancellation empties the second level, and the sweep finds ten. */
  lemma LateSweep() returns (steps: seq<ThreadStep>)
    ensures |steps| == 4
    ensures var s := Execute(false, Checked(), steps);
            1 in s.threads && s.threads[1] == Finished(Whole(), 10)
  {
    hide StrikeAt, Execute, Settle, WalkEffects, AllFilled, FilledEffects, Prune, Visible, Drawable;
    var o, c := Whole(), Both();
    steps := [Enter(2), Mutate(2, Half()), Strike(1), Strike(1)];
    var s0 := Checked();
    var s1 := Do(false, s0, steps[0]);
    var s2 := Do(false, s1, steps[1]);
    assert s2.core == Half();
    BlowAt();
    var v := StrikeAt(Plain(false), TakerOf(o), Shelf(1, 100), BaseQty(20)).visit;
    var s3 := Do(false, s2, steps[2]);
    assert s3.threads[1] == Sweeping(o, Some(100), BaseQty(10), [v], c);
    assert s3.core.asks == [Level(100, v.orders)];
    LastStrike(s3, v);
    var s4 := Do(false, s3, steps[3]);
    Steps(s0, s1, s2, s3, s4, steps);
    assert Execute(false, s4, steps[4..]) == s4 by { NoSteps(s4, steps[4..]); }
  }

  lemma NoSteps(s: State, steps: seq<ThreadStep>)
    requires steps == []
    ensures Execute(false, s, steps) == s
  {
  }

  lemma {:induction false} ExecuteThen(s: State, a: seq<ThreadStep>, b: seq<ThreadStep>)
    ensures Execute(false, s, a + b) == Execute(false, Execute(false, s, a), b)
    decreases |a|
  {
    hide Do;
    if a == [] {
      assert a + b == b;
    } else {
      assert (a + b)[0] == a[0] && (a + b)[1..] == a[1..] + b;
      ExecuteThen(Do(false, s, a[0]), a[1..], b);
    }
  }

  /** Without the write side a fill-or-kill order for twenty executes ten. */
  lemma SharedGateSplitsTheOrder() returns (steps: seq<ThreadStep>)
    ensures Shelved(Both())
    ensures var s := Execute(false, Initial(Both()), steps);
            1 in s.threads && s.threads[1] == Finished(Whole(), 10) && TotalQuantity(Whole()) == 20
  {
    hide Execute;
    var a := DryRun();
    var b := LateSweep();
    steps := a + b;
    ExecuteThen(Initial(Both()), a, b);
  }

  lemma Steps(s0: State, s1: State, s2: State, s3: State, s4: State, steps: seq<ThreadStep>)
    requires |steps| >= 4
    requires s1 == Do(false, s0, steps[0]) && s2 == Do(false, s1, steps[1])
    requires s3 == Do(false, s2, steps[2]) && s4 == Do(false, s3, steps[3])
    ensures Execute(false, s0, steps) == Execute(false, s4, steps[4..])
  {
    hide Do;
    assert steps[1..][1..] == steps[2..] && steps[2..][1..] == steps[3..] && steps[3..][1..] == steps[4..];
    assert Execute(false, s0, steps) == Execute(false, s1, steps[1..]);
    assert Execute(false, s1, steps[1..]) == Execute(false, s2, steps[2..]);
    assert Execute(false, s2, steps[2..]) == Execute(false, s3, steps[3..]);
    assert Execute(false, s3, steps[3..]) == Execute(false, s4, steps[4..]);
  }
}
