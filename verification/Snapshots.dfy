/** Snapshots and the two-phase restore: a fallible preparation on values of its own,
    then a commit that cannot fail. */
module Snapshots {
  import opened Types
  import opened Seqs
  import opened Effects
  import opened SweepLaws
  import opened Engine
  import opened Runs

  const MIN_READ_VERSION: nat := 2
  const FORMAT_VERSION: nat := 3

  type Symbol = nat

  /** The levels of both sides, listed best first. */
  datatype Snapshot = Snapshot(symbol: Symbol, bids: seq<Level>, asks: seq<Level>)

  datatype Package = Package(version: nat, snapshot: Snapshot, checksum: nat, stp: StpMode, tick: Option<nat>, lot: Option<nat>,
                             minSize: Option<nat>, maxSize: Option<nat>, next: nat, killed: bool, close: Option<nat>)

  /** What libraries decide: the checksum of a snapshot and which levels the price level
      crate accepts. */
  datatype Codec = Codec(digest: Snapshot -> nat, accepts: Level -> bool)

  datatype RestoreError =
    | UnsupportedVersion(version: nat)
    | ChecksumMismatch
    | SymbolMismatch
    | RejectedLevel(price: Price)
    | DuplicatePrice(price: Price)
    | DuplicateId(id: Id)

  datatype Restored<+T> = Completed(value: T) | Failed(error: RestoreError)

  /** Levels of both sides by ascending price. */
  datatype Prepared = Prepared(bids: seq<Level>, asks: seq<Level>)

  // ---- Capture ----

  function Capture(b: Book, symbol: Symbol, depth: nat): Snapshot {
    Snapshot(symbol, b.core.bids[..Min(depth, |b.core.bids|)], b.core.asks[..Min(depth, |b.core.asks|)])
  }

  function CapturePackage(codec: Codec, b: Book, symbol: Symbol, depth: nat): Package {
    var s := Capture(b, symbol, depth);
    var cfg := b.core.cfg;
    Package(FORMAT_VERSION, s, codec.digest(s), cfg.stp, cfg.tick, cfg.lot, cfg.minSize, cfg.maxSize,
            b.feed.next, b.core.killed, b.core.close)
  }

  // ---- Preparation ----

  /** Stable insertion by price. */
  function Insert(l: Level, sorted: seq<Level>): seq<Level> {
    if sorted == [] || l.price <= sorted[0].price then [l] + sorted else [sorted[0]] + Insert(l, sorted[1..])
  }

  function Sorted(levels: seq<Level>): seq<Level> {
    if levels == [] then [] else Insert(levels[0], Sorted(levels[1..]))
  }

  function FirstRejected(accepts: Level -> bool, levels: seq<Level>): Option<Price> {
    if levels == [] then None
    else if !accepts(levels[0]) then Some(levels[0].price)
    else FirstRejected(accepts, levels[1..])
  }

  /** The first price that two neighbours share. */
  function FirstTwin(levels: seq<Level>): Option<Price> {
    if |levels| < 2 then None
    else if levels[0].price == levels[1].price then Some(levels[0].price)
    else FirstTwin(levels[1..])
  }

  function Convert(accepts: Level -> bool, levels: seq<Level>): Restored<seq<Level>> {
    var sorted := Sorted(levels);
    if FirstRejected(accepts, levels).Some? then Failed(RejectedLevel(FirstRejected(accepts, levels).value))
    else if FirstTwin(sorted).Some? then Failed(DuplicatePrice(FirstTwin(sorted).value))
    else Completed(sorted)
  }

  function IdsOf(levels: seq<Level>): seq<Id> {
    if levels == [] then [] else Ids(levels[0].orders) + IdsOf(levels[1..])
  }

  /** The first id that is in `seen` or occurred before. */
  function FirstRepeat(seen: set<Id>, ids: seq<Id>): Option<Id>
    decreases |ids|
  {
    if ids == [] then None
    else if ids[0] in seen then Some(ids[0])
    else FirstRepeat(seen + {ids[0]}, ids[1..])
  }

  function Prepare(accepts: Level -> bool, s: Snapshot): Restored<Prepared> {
    match Convert(accepts, s.bids)
    case Failed(e) => Failed(e)
    case Completed(bids) =>
      match Convert(accepts, s.asks)
      case Failed(e) => Failed(e)
      case Completed(asks) =>
        var twice := FirstRepeat({}, IdsOf(bids + asks));
        if twice.Some? then Failed(DuplicateId(twice.value)) else Completed(Prepared(bids, asks))
  }

  // ---- Commit ----

  function Reversed(levels: seq<Level>): seq<Level> {
    if levels == [] then [] else Reversed(levels[1..]) + [levels[0]]
  }

  /** The orders of a level as the index rebuild records them. */
  function Stamps(side: Side, l: Level): seq<Tag> {
    seq(|l.orders|, i requires 0 <= i < |l.orders| => Tag(l.orders[i].tag.id, l.orders[i].tag.user, side, l.price))
  }

  function AllStamps(side: Side, levels: seq<Level>): seq<Tag> {
    if levels == [] then [] else Stamps(side, levels[0]) + AllStamps(side, levels[1..])
  }

  function RestedAll(tags: seq<Tag>): seq<Effect> {
    seq(|tags|, i requires 0 <= i < |tags| => Rested(tags[i]))
  }

  /** The index rebuild: bids by ascending price, then asks, each level in queue order. */
  function Rebuild(p: Prepared): seq<Effect> {
    RestedAll(AllStamps(Buy, p.bids) + AllStamps(Sell, p.asks))
  }

  /** Replace the levels, rebuild the indexes and drop the market close; no event is sent. */
  function Install(b: Book, p: Prepared): Book {
    var es := Rebuild(p);
    Book(b.core.(bids := Reversed(p.bids), asks := p.asks, locations := Locate(map[], es), close := None),
         Register(map[], es), Track(map[], es), b.feed)
  }

  /** Apply the saved configuration. */
  function Configure(b: Book, k: Package): Book {
    var cfg := b.core.cfg.(stp := k.stp, tick := k.tick, lot := k.lot, minSize := k.minSize, maxSize := k.maxSize);
    b.(core := b.core.(cfg := cfg, killed := k.killed, close := k.close), feed := b.feed.(next := k.next))
  }

  /** Restore from a bare snapshot. */
  function Restore(codec: Codec, b: Book, symbol: Symbol, s: Snapshot): Restored<Book> {
    if s.symbol != symbol then Failed(SymbolMismatch)
    else match Prepare(codec.accepts, s)
      case Failed(e) => Failed(e)
      case Completed(p) => Completed(Install(b, p))
  }

  function RestorePackage(codec: Codec, b: Book, symbol: Symbol, k: Package): Restored<Book> {
    if !(MIN_READ_VERSION <= k.version <= FORMAT_VERSION) then Failed(UnsupportedVersion(k.version))
    else if codec.digest(k.snapshot) != k.checksum then Failed(ChecksumMismatch)
    else match Restore(codec, b, symbol, k.snapshot)
      case Failed(e) => Failed(e)
      case Completed(b') => Completed(Configure(b', k))
  }

  // ---- When preparation succeeds ----

  predicate Ascends(levels: seq<Level>) {
    forall i, j :: 0 <= i < j < |levels| ==> levels[i].price < levels[j].price
  }

  predicate WeaklyAscends(levels: seq<Level>) {
    forall i, j :: 0 <= i < j < |levels| ==> levels[i].price <= levels[j].price
  }

  /** No two levels share a price. */
  predicate DistinctPrices(levels: seq<Level>) {
    forall i, j :: 0 <= i < j < |levels| ==> levels[i].price != levels[j].price
  }

  function AtPrice(p: Price): Level -> nat {
    (l: Level) => if l.price == p then 1 else 0
  }

  lemma {:induction false} InsertSum(f: Level -> nat, l: Level, sorted: seq<Level>)
    ensures Sum(f, Insert(l, sorted)) == f(l) + Sum(f, sorted)
    ensures forall m :: m in Insert(l, sorted) <==> m == l || m in sorted
    ensures |Insert(l, sorted)| == |sorted| + 1
  {
    if sorted == [] || l.price <= sorted[0].price {
      SumCons(f, l, sorted);
    } else {
      InsertSum(f, l, sorted[1..]);
      SumCons(f, sorted[0], Insert(l, sorted[1..]));
      assert sorted == [sorted[0]] + sorted[1..];
    }
  }

  lemma {:induction false} InsertAscends(l: Level, sorted: seq<Level>)
    requires WeaklyAscends(sorted)
    ensures WeaklyAscends(Insert(l, sorted))
  {
    if sorted != [] && l.price > sorted[0].price {
      InsertAscends(l, sorted[1..]);
      InsertSum(AtPrice(0), l, sorted[1..]);
      var out := Insert(l, sorted);
      forall i, j | 0 <= i < j < |out| ensures out[i].price <= out[j].price {
        assert out[j] in Insert(l, sorted[1..]);
      }
    }
  }

  /** Sorting permutes: every weight of the levels stays, and so do the members. */
  lemma {:induction false} SortedSum(f: Level -> nat, levels: seq<Level>)
    ensures Sum(f, Sorted(levels)) == Sum(f, levels)
    ensures forall m :: m in Sorted(levels) <==> m in levels
    ensures |Sorted(levels)| == |levels|
    ensures WeaklyAscends(Sorted(levels))
  {
    if levels != [] {
      SortedSum(f, levels[1..]);
      InsertSum(f, levels[0], Sorted(levels[1..]));
      InsertAscends(levels[0], Sorted(levels[1..]));
      assert levels == [levels[0]] + levels[1..];
    }
  }

  lemma {:induction false} TwinExactly(levels: seq<Level>)
    requires WeaklyAscends(levels)
    ensures FirstTwin(levels).None? <==> Ascends(levels)
  {
    if |levels| >= 2 {
      TwinExactly(levels[1..]);
      if levels[0].price != levels[1].price && Ascends(levels[1..]) {
        forall i, j | 0 <= i < j < |levels| ensures levels[i].price < levels[j].price {
          if i == 0 {
            assert levels[0].price < levels[1].price <= levels[j].price;
          } else {
            assert levels[i] == levels[1..][i - 1] && levels[j] == levels[1..][j - 1];
          }
        }
      } else if levels[0].price != levels[1].price {
        var i, j :| 0 <= i < j < |levels[1..]| && levels[1..][i].price >= levels[1..][j].price;
        assert levels[i + 1].price >= levels[j + 1].price;
      }
    }
  }

  /** Prices are distinct exactly when no price is counted twice. */
  lemma {:induction false} DistinctCounts(levels: seq<Level>)
    ensures DistinctPrices(levels) <==> forall p :: Sum(AtPrice(p), levels) <= 1
  {
    if levels != [] {
      var head, rest := levels[0], levels[1..];
      DistinctCounts(rest);
      assert levels == [head] + rest;
      if DistinctPrices(levels) {
        assert DistinctPrices(rest);
        forall p ensures Sum(AtPrice(p), levels) <= 1 {
          if p == head.price {
            SumZero(AtPrice(p), rest);
          }
        }
      } else if DistinctPrices(rest) {
        var j :| 0 < j < |levels| && levels[j].price == head.price;
        SumElement(AtPrice(head.price), rest, j - 1);
        assert Sum(AtPrice(head.price), levels) >= 2;
      } else {
        var p :| Sum(AtPrice(p), rest) > 1;
        assert Sum(AtPrice(p), levels) > 1;
      }
    }
  }

  lemma SortedDistinct(levels: seq<Level>)
    ensures Ascends(Sorted(levels)) <==> DistinctPrices(levels)
  {
    var out := Sorted(levels);
    SortedSum(AtPrice(0), levels);
    DistinctCounts(levels);
    DistinctCounts(out);
    forall p ensures Sum(AtPrice(p), out) == Sum(AtPrice(p), levels) {
      SortedSum(AtPrice(p), levels);
    }
    assert DistinctPrices(out) <==> DistinctPrices(levels);
    if DistinctPrices(out) {
      forall i, j | 0 <= i < j < |out| ensures out[i].price < out[j].price {
        assert out[i].price <= out[j].price && out[i].price != out[j].price;
      }
    }
  }

  lemma {:induction false} RejectedExactly(accepts: Level -> bool, levels: seq<Level>)
    ensures FirstRejected(accepts, levels).None? <==> forall l <- levels :: accepts(l)
  {
    if levels != [] {
      RejectedExactly(accepts, levels[1..]);
      assert levels == [levels[0]] + levels[1..];
    }
  }

  lemma ConvertExactly(accepts: Level -> bool, levels: seq<Level>)
    ensures Convert(accepts, levels).Completed? <==> (forall l <- levels :: accepts(l)) && DistinctPrices(levels)
    ensures Convert(accepts, levels).Completed? ==> Convert(accepts, levels) == Completed(Sorted(levels)) && Ascends(Sorted(levels))
  {
    RejectedExactly(accepts, levels);
    SortedSum(AtPrice(0), levels);
    TwinExactly(Sorted(levels));
    SortedDistinct(levels);
  }

  lemma {:induction false} RepeatExactly(seen: set<Id>, ids: seq<Id>)
    ensures FirstRepeat(seen, ids).None? <==> NoDup(ids) && forall id <- ids :: id !in seen
    decreases |ids|
  {
    if ids != [] && ids[0] !in seen {
      RepeatExactly(seen + {ids[0]}, ids[1..]);
      if NoDup(ids[1..]) && forall id <- ids[1..] :: id !in seen + {ids[0]} {
        forall i, j | 0 <= i < j < |ids| ensures ids[i] != ids[j] {
          assert ids[j] in ids[1..];
          if i > 0 {
            assert ids[i] == ids[1..][i - 1] && ids[j] == ids[1..][j - 1];
          }
        }
        assert ids == [ids[0]] + ids[1..];
      }
    }
  }

  /** Preparation succeeds exactly when the price level crate accepts every level, no side
      lists a price twice and no id occurs twice in the whole snapshot. */
  lemma PrepareExactly(accepts: Level -> bool, s: Snapshot)
    ensures Prepare(accepts, s).Completed? <==>
              && (forall l <- s.bids + s.asks :: accepts(l))
              && DistinctPrices(s.bids) && DistinctPrices(s.asks)
              && NoDup(IdsOf(Sorted(s.bids) + Sorted(s.asks)))
    ensures Prepare(accepts, s).Completed? ==>
              && Prepare(accepts, s).value == Prepared(Sorted(s.bids), Sorted(s.asks))
              && Ascends(Sorted(s.bids)) && Ascends(Sorted(s.asks))
  {
    ConvertExactly(accepts, s.bids);
    ConvertExactly(accepts, s.asks);
    RepeatExactly({}, IdsOf(Sorted(s.bids) + Sorted(s.asks)));
  }

  // ---- Preparation as loops ----

  lemma {:induction false} RejectedAt(accepts: Level -> bool, levels: seq<Level>, i: nat)
    requires i <= |levels| && forall j :: 0 <= j < i ==> accepts(levels[j])
    ensures FirstRejected(accepts, levels) == FirstRejected(accepts, levels[i..])
  {
    if i > 0 {
      RejectedAt(accepts, levels[1..], i - 1);
    } else {
      assert levels[0..] == levels;
    }
  }

  lemma {:induction false} TwinAt(levels: seq<Level>, i: nat)
    requires i <= |levels| && forall j :: 0 <= j < i && j + 1 < |levels| ==> levels[j].price != levels[j + 1].price
    ensures FirstTwin(levels) == FirstTwin(levels[i..])
  {
    if i > 0 {
      TwinAt(levels[1..], i - 1);
    } else {
      assert levels[0..] == levels;
    }
  }

  /** Validate the levels of one side, sort them and look for a repeated price. */
  method ConvertLevels(accepts: Level -> bool, levels: seq<Level>) returns (r: Restored<seq<Level>>)
    ensures r == Convert(accepts, levels)
  {
    for i := 0 to |levels|
      invariant forall j :: 0 <= j < i ==> accepts(levels[j])
    {
      if !accepts(levels[i]) {
        RejectedAt(accepts, levels, i);
        return Failed(RejectedLevel(levels[i].price));
      }
    }
    RejectedAt(accepts, levels, |levels|);
    var sorted := Sorted(levels);
    for i := 0 to |sorted|
      invariant forall j :: 0 <= j < i && j + 1 < |sorted| ==> sorted[j].price != sorted[j + 1].price
    {
      if i + 1 < |sorted| && sorted[i].price == sorted[i + 1].price {
        TwinAt(sorted, i);
        return Failed(DuplicatePrice(sorted[i].price));
      }
    }
    TwinAt(sorted, |sorted|);
    r := Completed(sorted);
  }

  lemma {:induction false} RepeatMore(seen: set<Id>, a: seq<Id>, b: seq<Id>)
    requires FirstRepeat(seen, a).None?
    ensures FirstRepeat(seen, a + b) == FirstRepeat(seen + (set id | id in a), b)
    decreases |a|
  {
    if a == [] {
      assert a + b == b && seen + (set id | id in a) == seen;
    } else {
      assert (a + b)[0] == a[0] && (a + b)[1..] == a[1..] + b;
      RepeatMore(seen + {a[0]}, a[1..], b);
      assert seen + {a[0]} + (set id | id in a[1..]) == seen + set id | id in a;
    }
  }

  lemma IdsUpTo(levels: seq<Level>, i: nat)
    requires i < |levels|
    ensures IdsOf(levels) == IdsOf(levels[..i]) + (Ids(levels[i].orders) + IdsOf(levels[i + 1..]))
    ensures IdsOf(levels[..i + 1]) == IdsOf(levels[..i]) + Ids(levels[i].orders)
  {
    hide IdsOf, Ids;
    SplitAt(levels, i);
    IdsAppend(levels[..i], [levels[i]] + levels[i + 1..]);
    IdsAppend([levels[i]], levels[i + 1..]);
    LevelIds(levels[i]);
    IdsAppend(levels[..i], [levels[i]]);
  }

  lemma LevelIds(l: Level)
    ensures IdsOf([l]) == Ids(l.orders)
  {
    assert [l][1..] == [] && Ids(l.orders) + [] == Ids(l.orders);
  }

  /** One id of the scan: a repeat ends it, a new id joins the ones passed. */
  lemma RepeatStep(passed: seq<Id>, id: Id, ahead: seq<Id>)
    requires FirstRepeat({}, passed).None?
    ensures id in passed ==> FirstRepeat({}, passed + ([id] + ahead)) == Some(id)
    ensures id !in passed ==> FirstRepeat({}, passed + [id]).None?
  {
    var seen := set x | x in passed;
    assert {} + seen == seen;
    RepeatMore({}, passed, [id] + ahead);
    RepeatMore({}, passed, [id]);
    assert ([id] + ahead)[0] == id && [id][1..] == [];
    assert FirstRepeat(seen + {id}, []).None?;
  }

  lemma IdsLength(orders: seq<Order>)
    ensures |Ids(orders)| == |orders|
  {
  }

  lemma IdAt(orders: seq<Order>, j: nat)
    requires j < |orders|
    ensures |Ids(orders)| == |orders| && Ids(orders)[j] == orders[j].tag.id
  {
  }

  lemma NothingSeen(levels: seq<Level>)
    ensures IdsOf(levels[..0]) == [] && FirstRepeat({}, []).None?
  {
  }

  /** Look for an id that occurs twice, with the set of ids seen so far. */
  method FindRepeatedId(levels: seq<Level>) returns (twice: Option<Id>)
    ensures twice == FirstRepeat({}, IdsOf(levels))
  {
    hide FirstRepeat, IdsOf, Ids;
    var seen: set<Id> := {};
    ghost var passed: seq<Id> := [];
    NothingSeen(levels);
    for i := 0 to |levels|
      invariant passed == IdsOf(levels[..i])
      invariant seen == set id | id in passed
      invariant FirstRepeat({}, passed).None?
    {
      IdsUpTo(levels, i);
      var orders := levels[i].orders;
      ghost var rest := IdsOf(levels[i + 1..]);
      ghost var before := passed;
      IdsLength(orders);
      for j := 0 to |orders|
        invariant passed == before + Ids(orders)[..j]
        invariant seen == set id | id in passed
        invariant FirstRepeat({}, passed).None?
      {
        var id := orders[j].tag.id;
        ghost var all := Ids(orders);
        IdAt(orders, j);
        RepeatStep(passed, id, all[j + 1..] + rest);
        assert before + (all + rest) == passed + ([id] + (all[j + 1..] + rest));
        if id in seen {
          return Some(id);
        }
        seen := seen + {id};
        passed := passed + [id];
      }
      IdsLength(orders);
      assert Ids(orders)[..|orders|] == Ids(orders);
    }
    assert levels[..|levels|] == levels;
    twice := None;
  }

  /** The fallible phase, on values of its own. */
  method PrepareSnapshotLevels(accepts: Level -> bool, s: Snapshot) returns (r: Restored<Prepared>)
    ensures r == Prepare(accepts, s)
  {
    hide Convert, FirstRepeat;
    var bids := ConvertLevels(accepts, s.bids);
    if bids.Failed? {
      return Failed(bids.error);
    }
    var asks := ConvertLevels(accepts, s.asks);
    if asks.Failed? {
      return Failed(asks.error);
    }
    var twice := FindRepeatedId(bids.value + asks.value);
    if twice.Some? {
      return Failed(DuplicateId(twice.value));
    }
    r := Completed(Prepared(bids.value, asks.value));
  }

  // ---- The rebuilt indexes ----

  function TagIds(tags: seq<Tag>): seq<Id> {
    seq(|tags|, i requires 0 <= i < |tags| => tags[i].id)
  }

  /** Registering tags with distinct ids is legal and records exactly them. */
  lemma {:induction false} RegisterAll(tags: seq<Tag>)
    requires NoDup(TagIds(tags))
    ensures var r := Register(map[], RestedAll(tags));
            && Legal(map[], RestedAll(tags))
            && Keyed(r)
            && forall id, t :: id in r && r[id] == t <==> t in tags && t.id == id
  {
    if tags != [] {
      var n := |tags| - 1;
      var last, front := tags[n], tags[..n];
      assert NoDup(TagIds(front)) by {
        assert TagIds(front) == TagIds(tags)[..n];
      }
      RegisterAll(front);
      assert RestedAll(tags) == RestedAll(front) + [Rested(last)];
      FoldAppend(RegisterStep, map[], RestedAll(front), [Rested(last)]);
      LegalAppend(map[], RestedAll(front), [Rested(last)]);
      var r := Register(map[], RestedAll(front));
      forall t | t in front ensures t.id != last.id {
        var k :| 0 <= k < n && front[k] == t;
        assert TagIds(tags)[k] != TagIds(tags)[n];
      }
      assert Register(map[], RestedAll(tags)) == r[last.id := last];
      assert tags == front + [last];
    }
  }

  lemma {:induction false} StampIds(side: Side, levels: seq<Level>)
    ensures TagIds(AllStamps(side, levels)) == IdsOf(levels)
  {
    if levels != [] {
      StampIds(side, levels[1..]);
      assert TagIds(Stamps(side, levels[0])) == Ids(levels[0].orders);
    }
  }

  lemma {:induction false} IdsAppend(a: seq<Level>, b: seq<Level>)
    ensures IdsOf(a + b) == IdsOf(a) + IdsOf(b)
  {
    if a == [] {
      assert a + b == b;
    } else {
      assert (a + b)[0] == a[0] && (a + b)[1..] == a[1..] + b;
      IdsAppend(a[1..], b);
    }
  }

  lemma StampedIds(p: Prepared)
    ensures TagIds(AllStamps(Buy, p.bids) + AllStamps(Sell, p.asks)) == IdsOf(p.bids + p.asks)
  {
    StampIds(Buy, p.bids);
    StampIds(Sell, p.asks);
    IdsAppend(p.bids, p.asks);
    var a, b := AllStamps(Buy, p.bids), AllStamps(Sell, p.asks);
    assert TagIds(a + b) == TagIds(a) + TagIds(b);
  }

  /** A stamp is recorded exactly when a level at its price holds an order with its id and
      user. */
  lemma {:induction false} StampMember(side: Side, levels: seq<Level>, t: Tag)
    ensures t in AllStamps(side, levels) <==>
              t.side == side && exists l, o :: l in levels && o in l.orders && l.price == t.price && o.tag.id == t.id && o.tag.user == t.user
  {
    if levels != [] {
      StampMember(side, levels[1..], t);
      assert levels == [levels[0]] + levels[1..];
      if t in Stamps(side, levels[0]) {
        var k :| 0 <= k < |levels[0].orders| && Stamps(side, levels[0])[k] == t;
        assert levels[0].orders[k] in levels[0].orders;
      }
      if t.side == side && t.price == levels[0].price && exists o :: o in levels[0].orders && o.tag.id == t.id && o.tag.user == t.user {
        var o :| o in levels[0].orders && o.tag.id == t.id && o.tag.user == t.user;
        var k :| 0 <= k < |levels[0].orders| && levels[0].orders[k] == o;
        assert Stamps(side, levels[0])[k] == t;
      }
    }
  }

  lemma {:induction false} ReversedMembers(levels: seq<Level>)
    ensures |Reversed(levels)| == |levels|
    ensures forall i :: 0 <= i < |levels| ==> Reversed(levels)[i] == levels[|levels| - 1 - i]
    ensures forall l :: l in Reversed(levels) <==> l in levels
  {
    if levels != [] {
      ReversedMembers(levels[1..]);
      assert levels == [levels[0]] + levels[1..];
    }
  }

  /** What the commit leaves, for prepared levels whose ids are distinct. */
  lemma InstallFacts(b: Book, p: Prepared)
    requires NoDup(IdsOf(p.bids + p.asks))
    ensures var b' := Install(b, p);
            var tags := AllStamps(Buy, p.bids) + AllStamps(Sell, p.asks);
            && Legal(map[], Rebuild(p))
            && Keyed(b'.registry)
            && Locates(b'.core.locations, b'.registry)
            && Tracks(b'.users, b'.registry)
            && forall id, t :: id in b'.registry && b'.registry[id] == t <==> t in tags && t.id == id
  {
    hide AllStamps;
    StampedIds(p);
    RegisterAll(AllStamps(Buy, p.bids) + AllStamps(Sell, p.asks));
    LocatesKept(map[], map[], Rebuild(p));
    TracksKept(map[], map[], Rebuild(p));
  }

  lemma ReversedDescends(levels: seq<Level>)
    requires Ascends(levels)
    ensures BestFirst(Buy, Reversed(levels)) && BestFirst(Sell, levels)
  {
    ReversedMembers(levels);
  }

  /** After any successful restore, whatever the level contents, the location index is exact:
      an id is indexed at a price and side if and only if a level there holds it, no id occurs
      twice and both sides are strictly sorted. */
  lemma RestoredIndexExact(codec: Codec, b: Book, symbol: Symbol, s: Snapshot, id: Id, side: Side, price: Price)
    requires Restore(codec, b, symbol, s).Completed?
    ensures var b' := Restore(codec, b, symbol, s).value;
            && (id in b'.core.locations && b'.core.locations[id] == Location(price, side)
                <==> exists l, o :: l in SideOf(b'.core, side) && o in l.orders && l.price == price && o.tag.id == id)
            && BestFirst(side, SideOf(b'.core, side))
            && Tracks(b'.users, b'.registry)
            && NoDup(IdsOf(Sorted(s.bids) + Sorted(s.asks)))
            && (forall l :: l in SideOf(b'.core, side) <==> l in if side.Buy? then s.bids else s.asks)
  {
    hide Prepare, Sorted, AllStamps, IdsOf, Reversed, Rebuild, Tracks, BestFirst, Ascends, NoDup, Keyed, Legal;
    PrepareExactly(codec.accepts, s);
    var p := Prepared(Sorted(s.bids), Sorted(s.asks));
    InstallFacts(b, p);
    ReversedDescends(p.bids);
    ReversedDescends(p.asks);
    ReversedMembers(p.bids);
    SortedSum(AtPrice(0), s.bids);
    SortedSum(AtPrice(0), s.asks);
    RestoredAt(p, Install(b, p), id, side, price);
  }

  lemma RestoredAt(p: Prepared, b': Book, id: Id, side: Side, price: Price)
    requires var tags := AllStamps(Buy, p.bids) + AllStamps(Sell, p.asks);
             && (forall id, t :: id in b'.registry && b'.registry[id] == t <==> t in tags && t.id == id)
             && Locates(b'.core.locations, b'.registry)
    requires b'.core.bids == Reversed(p.bids) && b'.core.asks == p.asks
    ensures id in b'.core.locations && b'.core.locations[id] == Location(price, side)
            <==> exists l, o :: l in SideOf(b'.core, side) && o in l.orders && l.price == price && o.tag.id == id
  {
    ReversedMembers(p.bids);
    if id in b'.core.locations && b'.core.locations[id] == Location(price, side) {
      var t := b'.registry[id];
      StampMember(Buy, p.bids, t);
      StampMember(Sell, p.asks, t);
    }
    if exists l, o :: l in SideOf(b'.core, side) && o in l.orders && l.price == price && o.tag.id == id {
      var l, o :| l in SideOf(b'.core, side) && o in l.orders && l.price == price && o.tag.id == id;
      var t := Tag(id, o.tag.user, side, price);
      StampMember(Buy, p.bids, t);
      StampMember(Sell, p.asks, t);
      assert t in AllStamps(Buy, p.bids) + AllStamps(Sell, p.asks);
    }
  }
}
