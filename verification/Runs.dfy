/** The whole book and its runs: from the empty book, any sequence of commands. */
module Runs {
  import opened Types
  import opened Seqs
  import opened Orders
  import opened Levels
  import opened Stp
  import opened Effects
  import opened Matching
  import opened SweepLaws
  import opened Engine
  import opened SideLaws
  import opened CoreLaws
  import opened OpLaws

  /** The queues and location index, the registry of resting orders that the effect log
      describes, the per-user index and the outbound feed. */
  datatype Book = Book(core: Core, registry: map<Id, Tag>, users: map<User, seq<Id>>, feed: Feed)

  datatype Command =
    | Submit(order: Order, now: nat)
    | CancelOne(id: Id)
    | Change(update: Update, now: nat)
    | Execute(taker: Taker, stop: StopCondition)
    | Market(id: Id, user: User, side: Side, stop: StopCondition)
    | CancelEverything
    | CancelSide(side: Side)
    | CancelUser(user: User)
    | CancelRange(side: Side, low: Price, high: Price)
    | Evict(now: nat)
    | SetKillSwitch(on: bool)
    | SetClose(close: Option<nat>)

  function Commit(b: Book, c: Core, es: seq<Effect>): Book {
    Book(c, Register(b.registry, es), Track(b.users, es), Emit(b.feed, es))
  }

  function Step(b: Book, cmd: Command): Book {
    match cmd
    case Submit(o, now) => var x := Add(b.core, o, now); Commit(b, x.core, x.effects)
    case CancelOne(id) => var x := Cancel(b.core, id); Commit(b, x.core, x.effects)
    case Change(u, now) => var x := UpdateOrder(b.core, u, now); Commit(b, x.core, x.effects)
    case Execute(tk, stop) => var x := Take(b.core, tk, stop); Commit(b, x.core, x.effects)
    case Market(id, user, side, stop) =>
      var x := TakeMarket(b.core, MarketTaker(id, user, side), stop); Commit(b, x.core, x.effects)
    case CancelEverything => var x := CancelAll(b.core); Commit(b, x.core, x.effects)
    case CancelSide(s) => var x := CancelBySide(b.core, s); Commit(b, x.core, x.effects)
    case CancelUser(u) =>
      var x := CancelEach(b.core, ListOf(b.users, u));
      Commit(b.(users := b.users - {u}), x.core, x.effects)
    case CancelRange(s, low, high) => var x := CancelByRange(b.core, s, low, high); Commit(b, x.core, x.effects)
    case Evict(now) => var x := EvictExpired(b.core, now); Commit(b, x.core, x.effects)
    case SetKillSwitch(on) => b.(core := b.core.(killed := on))
    case SetClose(close) => b.(core := b.core.(close := close))
  }

  function Run(b: Book, cmds: seq<Command>): Book
    decreases |cmds|
  {
    if cmds == [] then b else Run(Step(b, cmds[0]), cmds[1..])
  }

  /** The error a command returns, if any. Cancellations never fail. */
  function Failure(c: Core, cmd: Command): Option<Error> {
    match cmd
    case Submit(o, now) => var r := Add(c, o, now).reply; if r.Err? then Some(r.error) else None
    case Change(u, now) => var r := UpdateOrder(c, u, now).reply; if r.Err? then Some(r.error) else None
    case Execute(tk, stop) => var r := Take(c, tk, stop).reply; if r.Err? then Some(r.error) else None
    case Market(id, user, side, stop) =>
      var r := TakeMarket(c, MarketTaker(id, user, side), stop).reply; if r.Err? then Some(r.error) else None
    case _ => None
  }

  function Empty(cfg: Config): Book {
    Book(Core(cfg, [], [], map[], false, None), map[], map[], Feed([], 0))
  }

  /** Command parameters fit their machine types; a quantity update to zero is left out
      when the level drops such an order. */
  predicate Wellformed(cfg: Config, cmd: Command) {
    match cmd
    case Submit(o, _) => Proper(o)
    case Change(u, _) => Sized(u) && (u.UpdateQuantity? ==> u.quantity > 0 || !cfg.dropZero)
    case _ => true
  }

  /** A consumer of the level events holds every displayed quantity. */
  ghost predicate Mirrors(b: Book) {
    forall s, p :: Seen(b.feed.events, s, p) == VisibleAt(SideOf(b.core, s), p)
  }

  /** Ordered queues and exact indexes. */
  ghost predicate Sound(b: Book) {
    Good(b.core, b.registry) && Tracks(b.users, b.registry)
  }

  ghost predicate Inv(b: Book) {
    Sound(b) && Consecutive(b.feed) && Mirrors(b)
  }

  lemma RunEmpty(b: Book)
    ensures Run(b, []) == b
  {
  }

  lemma CommitNone(b: Book)
    ensures Commit(b, b.core, []) == b
  {
  }

  lemma CommitCore(b: Book, c: Core, es: seq<Effect>)
    ensures Commit(b, c, es).core == c
  {
  }

  lemma CommitSound(b: Book, c: Core, es: seq<Effect>)
    requires Sound(b) && Moves(b.core, b.registry, es, c)
    ensures Sound(Commit(b, c, es))
  {
    TracksKept(b.users, b.registry, es);
  }

  lemma CommitInv(b: Book, c: Core, es: seq<Effect>)
    requires Inv(b) && Moves(b.core, b.registry, es, c)
    ensures Inv(Commit(b, c, es))
  {
    CommitSound(b, c, es);
    ConsecutiveKept(b.feed, es);
    forall s, p ensures Seen(Commit(b, c, es).feed.events, s, p) == VisibleAt(SideOf(c, s), p) {
      SeenShown(b.feed, es, s, p);
    }
  }

  // ---- Cancelling by user ----

  lemma CancelRegisters(c: Core, r: map<Id, Tag>, id: Id)
    requires Good(c, r)
    ensures var x := Cancel(c, id);
            && Register(r, x.effects) == r - {id}
            && forall e <- x.effects :: e.LevelChanged? || (e.Cancelled? && id in r && e.tag == r[id])
  {
    var x := Cancel(c, id);
    if id in r {
      Found(c, r, id);
      FoldPair(RegisterStep, r, x.effects[0], x.effects[1]);
    }
  }

  lemma {:induction false} CancelEachRegisters(c: Core, r: map<Id, Tag>, ids: seq<Id>)
    requires Good(c, r)
    ensures var x := CancelEach(c, ids);
            && Register(r, x.effects) == r - (set id | id in ids)
            && forall e <- x.effects :: e.LevelChanged? || (e.Cancelled? && e.tag.id in ids && e.tag.id in r && e.tag == r[e.tag.id])
    decreases |ids|
  {
    hide Good, Cancel;
    if ids != [] {
      var first := Cancel(c, ids[0]);
      CancelRegisters(c, r, ids[0]);
      CancelMoves(c, r, ids[0]);
      assert Keyed(r) by { UnfoldGood(c, r); }
      var r' := Register(r, first.effects);
      assert Good(first.core, r') by { UnfoldMoves(c, r, first.effects, first.core); }
      CancelEachRegisters(first.core, r', ids[1..]);
      FoldAppend(RegisterStep, r, first.effects, CancelEach(first.core, ids[1..]).effects);
      assert (set id | id in ids) == {ids[0]} + set id | id in ids[1..];
    }
  }

  lemma {:induction false} TrackWithout(users: map<User, seq<Id>>, user: User, es: seq<Effect>)
    requires forall e <- es :: e.LevelChanged? || (e.Cancelled? && e.tag.user == user)
    ensures Track(users - {user}, es) == Track(users, es) - {user}
    decreases |es|
  {
    if es != [] {
      assert es[0] in es && forall e <- es[1..] :: e in es;
      TrackWithout(TrackStep(users, es[0]), user, es[1..]);
      assert TrackStep(users, es[0]) - {user} == TrackStep(users - {user}, es[0]);
    }
  }

  lemma NoListLeft(users: map<User, seq<Id>>, r: map<Id, Tag>, user: User)
    requires Tracks(users, r) && forall id <- r :: r[id].user != user
    ensures user !in users
  {
    assert forall u <- users :: users[u][0] in users[u];
  }

  lemma NoUsersLeft(users: map<User, seq<Id>>)
    requires Tracks(users, map[])
    ensures users == map[]
  {
    forall u ensures u !in users {
      NoListLeft(users, map[], u);
    }
  }

  /** Taking the user's list out before cancelling its ids comes to the same as leaving it in. */
  lemma CancelUserCommits(b: Book, user: User)
    requires Sound(b)
    ensures var x := CancelEach(b.core, ListOf(b.users, user));
            Step(b, CancelUser(user)) == Commit(b, x.core, x.effects)
  {
    hide Good;
    var ids := ListOf(b.users, user);
    var x := CancelEach(b.core, ids);
    CancelEachMoves(b.core, b.registry, ids);
    CancelEachRegisters(b.core, b.registry, ids);
    CommitSound(b, x.core, x.effects);
    TrackWithout(b.users, user, x.effects);
    var after := Commit(b, x.core, x.effects);
    NoListLeft(after.users, after.registry, user);
  }

  // ---- Every run ----

  /** Every command but the two settings is a move of the book. */
  lemma StepMoves(b: Book, cmd: Command) returns (es: seq<Effect>)
    requires Sound(b) && Wellformed(b.core.cfg, cmd) && !cmd.SetKillSwitch? && !cmd.SetClose?
    ensures Moves(b.core, b.registry, es, Step(b, cmd).core)
    ensures Step(b, cmd) == Commit(b, Step(b, cmd).core, es)
  {
    hide Good, Moves, Add, Cancel, UpdateOrder, Take, CancelAll, CancelEach;
    var c, r := b.core, b.registry;
    match cmd
    case Submit(o, now) => es := Add(c, o, now).effects; AddMoves(c, r, o, now);
    case CancelOne(id) => es := Cancel(c, id).effects; CancelMoves(c, r, id);
    case Change(u, now) => es := UpdateOrder(c, u, now).effects; UpdateMoves(c, r, u, now);
    case Execute(tk, stop) => es := Take(c, tk, stop).effects; TakeMoves(c, r, tk, stop);
    case Market(id, user, side, stop) =>
      es := TakeMarket(c, MarketTaker(id, user, side), stop).effects;
      MovesNone(c, r);
      TakeMoves(c, r, MarketTaker(id, user, side), stop);
    case CancelEverything => es := CancelAll(c).effects; CancelAllMoves(c, r);
    case CancelUser(u) =>
      es := CancelEach(c, ListOf(b.users, u)).effects;
      CancelUserCommits(b, u);
      CancelEachMoves(c, r, ListOf(b.users, u));
    case CancelSide(s) => es := EachMoves(c, r, Ids(Ascending(s, SideOf(c, s))));
    case CancelRange(s, low, high) =>
      es := EachMoves(c, r, Ids(Filter(InRange(low, high), Ascending(s, SideOf(c, s)))));
      if low > high {
        es := [];
        MovesNone(c, r);
      }
    case Evict(now) => es := EachMoves(c, r, Ids(Filter(ExpiredAt(now, c.close), AllAscending(c))));
  }

  lemma EachMoves(c: Core, r: map<Id, Tag>, ids: seq<Id>) returns (es: seq<Effect>)
    requires Good(c, r)
    ensures es == CancelEach(c, ids).effects && Moves(c, r, es, CancelEach(c, ids).core)
  {
    es := CancelEach(c, ids).effects;
    CancelEachMoves(c, r, ids);
  }

  /** Every command keeps the queues in order and both indexes exact. */
  lemma StepSound(b: Book, cmd: Command)
    requires Sound(b) && Wellformed(b.core.cfg, cmd)
    ensures Sound(Step(b, cmd)) && Step(b, cmd).core.cfg == b.core.cfg
  {
    hide Step;
    if cmd.SetKillSwitch? || cmd.SetClose? {
      SettingStep(b, cmd);
      SettingSound(b, Step(b, cmd).core);
    } else {
      var es := StepMoves(b, cmd);
      CommitSound(b, Step(b, cmd).core, es);
    }
  }

  lemma SettingStep(b: Book, cmd: Command)
    requires cmd.SetKillSwitch? || cmd.SetClose?
    ensures var c := Step(b, cmd).core;
            Step(b, cmd) == b.(core := c) && c == b.core.(killed := c.killed, close := c.close)
  {
  }

  lemma SettingSound(b: Book, c: Core)
    requires Sound(b) && c == b.core.(killed := c.killed, close := c.close)
    ensures Sound(b.(core := c))
  {
    forall t ensures BookSum(Is(t), c) == Registered(b.registry, t) {
      assert BookSum(Is(t), b.core) == Registered(b.registry, t);
    }
  }

  lemma StepInv(b: Book, cmd: Command)
    requires Inv(b) && Wellformed(b.core.cfg, cmd)
    ensures Inv(Step(b, cmd))
    ensures Step(b, cmd).core.cfg == b.core.cfg
  {
    hide Step, Sound, Mirrors, Consecutive;
    StepSound(b, cmd);
    if cmd.SetKillSwitch? || cmd.SetClose? {
      SettingStep(b, cmd);
      SettingMirrors(b, Step(b, cmd).core);
    } else {
      var es := StepMoves(b, cmd);
      CommitInv(b, Step(b, cmd).core, es);
    }
  }

  lemma SettingMirrors(b: Book, c: Core)
    requires Mirrors(b) && c == b.core.(killed := c.killed, close := c.close)
    ensures Mirrors(b.(core := c))
  {
    forall s, p ensures Seen(b.feed.events, s, p) == VisibleAt(SideOf(c, s), p) {
      assert Seen(b.feed.events, s, p) == VisibleAt(SideOf(b.core, s), p);
    }
  }

  lemma EmptyInv(cfg: Config)
    ensures Inv(Empty(cfg))
  {
  }

  /** Every run of well-formed commands from an empty book keeps the queues in order, both
      indexes exact, the consumer's view true and the event numbers consecutive. */
  lemma {:induction false} RunInv(b: Book, cmds: seq<Command>)
    requires Inv(b) && forall cmd <- cmds :: Wellformed(b.core.cfg, cmd)
    ensures Inv(Run(b, cmds))
    decreases |cmds|
  {
    hide Inv;
    if cmds != [] {
      assert cmds[0] in cmds && forall cmd <- cmds[1..] :: cmd in cmds;
      StepInv(b, cmds[0]);
      RunInv(Step(b, cmds[0]), cmds[1..]);
    }
  }

  // ---- What the invariant says about the indexes ----

  /** An id is indexed at a price and side if and only if it rests in that level's queue,
      and then it rests there exactly once. */
  lemma LocationsExact(b: Book, id: Id, s: Side, p: Price)
    requires Inv(b)
    ensures |Filter(HasId(id), QueueAt(SideOf(b.core, s), p))|
            == if id in b.core.locations && b.core.locations[id] == Location(p, s) then 1 else 0
  {
    var levels := SideOf(b.core, s);
    var hits := Filter(HasId(id), QueueAt(levels, p));
    QueueFacts(s, levels, p);
    if hits != [] {
      FilterMember(HasId(id), QueueAt(levels, p), hits[0]);
      OrderWeight(hits[0].tag, s, levels, p, hits[0]);
      assert BookSum(Is(hits[0].tag), b.core) == Registered(b.registry, hits[0].tag);
      assert Fits(hits[0], s, p);
    }
    if id in b.core.locations {
      Found(b.core, b.registry, id);
    }
  }

  /** A user's list holds exactly the ids of that user's resting orders, each once, and no
      empty list is kept. */
  lemma UsersExact(b: Book, id: Id, user: User)
    requires Inv(b)
    ensures id in ListOf(b.users, user) <==> GetOrder(b.core, id).Some? && GetOrder(b.core, id).value.tag.user == user
    ensures NoDup(ListOf(b.users, user))
    ensures user in b.users ==> b.users[user] != []
  {
    if id in b.core.locations {
      Found(b.core, b.registry, id);
    }
  }

  /** The three statements on every reachable book. */
  lemma ReachableBook(cfg: Config, cmds: seq<Command>, id: Id, user: User, s: Side, p: Price)
    requires forall cmd <- cmds :: Wellformed(cfg, cmd)
    ensures var b := Run(Empty(cfg), cmds);
            && SideOk(s, SideOf(b.core, s))
            && |Filter(HasId(id), QueueAt(SideOf(b.core, s), p))|
               == (if id in b.core.locations && b.core.locations[id] == Location(p, s) then 1 else 0)
            && (id in ListOf(b.users, user) <==> GetOrder(b.core, id).Some? && GetOrder(b.core, id).value.tag.user == user)
            && Seen(b.feed.events, s, p) == Sum(Visible, QueueAt(SideOf(b.core, s), p))
            && Consecutive(b.feed)
  {
    EmptyInv(cfg);
    RunInv(Empty(cfg), cmds);
    var b := Run(Empty(cfg), cmds);
    LocationsExact(b, id, s, p);
    UsersExact(b, id, user);
    QueueFacts(s, SideOf(b.core, s), p);
  }
}
