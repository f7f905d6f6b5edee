/** The journal of a live run, and exactly when its replay rebuilds the live book. The kill
    switch and the market close are settings of the live book that no record carries, and the
    time an order or update read is lost; the replayed book has a close and a clock of its own. */
module JournalLaws {
  import opened Types
  import opened Seqs
  import opened Orders
  import opened Effects
  import opened Matching
  import opened SelfCross
  import opened Engine
  import opened CoreLaws
  import opened Runs
  import opened MassCancelLaws
  import opened Replays
  import opened FailureLaws

  /** What a live run writes: every command that has an entry, marked as rejected when it
      failed. The others leave neither a record nor a number. */
  function Journal(b: Book, first: nat, cmds: seq<Command>): seq<Record>
    decreases |cmds|
  {
    if cmds == [] then []
    else
      var e, next := EntryOf(cmds[0]), Step(b, cmds[0]);
      if e.None? then Journal(next, first, cmds[1..])
      else [Record(first, e.value, Failure(b.core, cmds[0]).Some?)] + Journal(next, first + 1, cmds[1..])
  }

  /** The settings of `d` on the queues and indexes of `c`. */
  function Dress(c: Core, d: Core): Core {
    c.(killed := d.killed, close := d.close)
  }

  /** Equal queues, indexes and feeds; kill switch and market close may differ. */
  predicate Twin(b: Book, x: Book) {
    x == b.(core := Dress(b.core, x.core))
  }

  /** The replay of the whole journal succeeds and gives the live book. */
  predicate Rebuilt(clock: Clock, b: Book, x: Book, last: nat, first: nat, cmds: seq<Command>) {
    var y := Replay(clock, x, last, first, Journal(b, first, cmds));
    y.error.None? && Twin(Run(b, cmds), y.book)
  }

  /** It does so at every moment of the live run. */
  predicate RebuiltThroughout(clock: Clock, b: Book, x: Book, last: nat, first: nat, cmds: seq<Command>) {
    forall n: nat :: n <= |cmds| ==> Rebuilt(clock, b, x, last, first, cmds[..n])
  }

  // ---- The condition ----

  /** The verdicts on expiry that the replay repeats: it reads another clock and knows another
      market close. */
  predicate Current(c: Core, close: Option<nat>, cmd: Command, t: nat) {
    match cmd
    case Submit(o, _) => !Expired(o.tif, t, close)
    case Change(u, _) => u.Withdraw? || GetOrder(c, u.id).None? || !Expired(GetOrder(c, u.id).value.tif, t, close)
    case Evict(now) => forall o <- AllAscending(c) :: Expired(o.tif, now, c.close) <==> Expired(o.tif, now, close)
    case _ => true
  }

  predicate Setting(cmd: Command) {
    cmd.SetKillSwitch? || cmd.SetClose?
  }

  /** A command the replay does not repeat must move nothing, and one that it repeats must get
      the same verdict on expiry. Settings are free. */
  predicate Kept(c: Core, close: Option<nat>, cmd: Command, t: nat) {
    if Setting(cmd) then true
    else if EntryOf(cmd).None? || Failure(c, cmd).Some? then Steady(c, cmd)
    else Current(c, close, cmd, t)
  }

  function NextNumber(cmd: Command, first: nat): nat {
    if EntryOf(cmd).Some? then first + 1 else first
  }

  /** Every command of a run is kept, and no record takes the last number there is. */
  predicate AllKept(clock: Clock, b: Book, close: Option<nat>, first: nat, cmds: seq<Command>)
    decreases |cmds|
  {
    cmds == [] ||
    (&& Kept(b.core, close, cmds[0], clock(first))
     && (EntryOf(cmds[0]).Some? ==> first != U64_MAX)
     && AllKept(clock, Step(b, cmds[0]), close, NextNumber(cmds[0], first), cmds[1..]))
  }

  // ---- Operations do not read the settings, except for the kill switch and expiry ----

  lemma MatchDressed(c: Core, d: Core, tk: Taker, stop: StopCondition)
    ensures var m, n := Match(c, tk, stop), Match(Dress(c, d), tk, stop);
            n.core == Dress(m.core, d) && n.effects == m.effects && n.reply == m.reply
  {
    hide Sweep, Locate, Prune, AddTrades, Normalize, Trades, WalkEffects, AllFilled, FilledEffects;
  }

  lemma TakeDressed(c: Core, d: Core, tk: Taker, stop: StopCondition)
    ensures var m, n := Take(c, tk, stop), Take(Dress(c, d), tk, stop);
            n.core == Dress(m.core, d) && n.effects == m.effects && n.reply == m.reply
  {
    hide Match;
    MatchDressed(c, d, tk, stop);
  }

  lemma FinishDressed(c: Core, d: Core, o: Order, es: seq<Effect>, r: MatchReply)
    ensures var m, n := Finish(c, o, es, r), Finish(Dress(c, d), o, es, r);
            n.core == Dress(m.core, d) && n.effects == m.effects && n.reply == m.reply
  {
    hide Place, Residual, QueueAt;
  }

  lemma RemoveDressed(c: Core, d: Core, id: Id, mark: Tag -> Effect)
    ensures var m, n := Remove(c, id, mark), Remove(Dress(c, d), id, mark);
            n.core == Dress(m.core, d) && n.effects == m.effects && n.reply == m.reply
  {
    hide Locate, PutQueue;
  }

  lemma {:induction false} CancelEachDressed(c: Core, d: Core, ids: seq<Id>)
    ensures var m, n := CancelEach(c, ids), CancelEach(Dress(c, d), ids);
            n.core == Dress(m.core, d) && n.effects == m.effects
    decreases |ids|
  {
    hide Remove;
    if ids != [] {
      RemoveDressed(c, d, ids[0], ByCancel);
      CancelEachDressed(Cancel(c, ids[0]).core, d, ids[1..]);
    }
  }

  lemma CancelAllDressed(c: Core, d: Core)
    ensures var m, n := CancelAll(c), CancelAll(Dress(c, d)); n.core == Dress(m.core, d) && n.effects == m.effects
  {
  }

  /** A valid order stays valid if and only if it is not expired. */
  lemma ValidateDressed(c: Core, d: Core, o: Order, now: nat, t: nat)
    requires Validate(c, o, now).None?
    ensures Validate(Dress(c, d), o, t).None? <==> !Expired(o.tif, t, d.close)
  {
    hide Expired, LotError;
  }

  /** An admitted order is admitted again if and only if it is not expired, and then does the
      same. */
  lemma AddDressed(c: Core, d: Core, o: Order, now: nat, t: nat)
    requires Refusal(c, o, now).None? && !d.killed
    ensures Refusal(Dress(c, d), o, t).None? <==> !Expired(o.tif, t, d.close)
    ensures Refusal(Dress(c, d), o, t).Some? ==> Add(Dress(c, d), o, t).reply.Err?
    ensures Refusal(Dress(c, d), o, t).None? ==>
              var m, n := Add(c, o, now), Add(Dress(c, d), o, t);
              n.core == Dress(m.core, d) && n.effects == m.effects && n.reply == m.reply
  {
    hide Match, Validate, Finish, Expired, WillCross, Room;
    ValidateDressed(c, d, o, now, t);
    HeadroomDressed(c, d, o);
    var tk, stop := TakerOf(o), BaseQty(TotalQuantity(o));
    MatchDressed(c, d, tk, stop);
    var m := Match(c, tk, stop);
    if m.reply.Ok? {
      FinishDressed(m.core, d, o, m.effects, m.reply.value);
    }
  }

  lemma HeadroomDressed(c: Core, d: Core, o: Order)
    ensures Headroom(Dress(c, d), o) == Headroom(c, o)
  {
  }

  lemma ResizeDressed(c: Core, d: Core, prior: Order, o: Order, now: nat, t: nat)
    requires Resize(c, prior, o, now).reply.Ok?
    ensures Resize(Dress(c, d), prior, o, t).reply.Ok? <==> !Expired(o.tif, t, d.close)
    ensures Resize(Dress(c, d), prior, o, t).reply.Ok? ==>
              var m, n := Resize(c, prior, o, now), Resize(Dress(c, d), prior, o, t);
              n.core == Dress(m.core, d) && n.effects == m.effects
  {
    hide Validate, Expired, Locate, PutQueue, Resized, Substitute;
    ValidateDressed(c, d, o, now, t);
  }

  lemma ModifyDressed(c: Core, d: Core, o: Order, now: nat, t: nat)
    requires Modify(c, o, now).reply.Ok? && !d.killed
    ensures Modify(Dress(c, d), o, t).reply.Ok? <==> !Expired(o.tif, t, d.close)
    ensures Modify(Dress(c, d), o, t).reply.Ok? ==>
              var m, n := Modify(c, o, now), Modify(Dress(c, d), o, t);
              n.core == Dress(m.core, d) && n.effects == m.effects
  {
    hide Validate, Expired, Reaches, Remove, Add, Refusal;
    ValidateDressed(c, d, o, now, t);
    RemoveDressed(c, d, o.tag.id, ByCancel);
    var cut := Cancel(c, o.tag.id).core;
    assert Refusal(cut, o, now).None? by { AdmittedAgain(cut, o, now); }
    AddDressed(cut, d, o, now, t);
  }

  lemma AdmittedAgain(c: Core, o: Order, now: nat)
    requires Add(c, o, now).reply.Ok?
    ensures Refusal(c, o, now).None?
  {
    hide Refusal, Match;
  }

  lemma FoundDressed(c: Core, d: Core, id: Id)
    ensures GetOrder(Dress(c, d), id) == GetOrder(c, id)
  {
  }

  lemma RevisedTif(o: Order, u: Update)
    ensures Revised(o, u).tif == o.tif
  {
  }

  /** An update that succeeded succeeds again if and only if its order is not expired. */
  lemma UpdateDressed(c: Core, d: Core, u: Update, now: nat, t: nat)
    requires UpdateOrder(c, u, now).reply.Ok? && !d.killed
    ensures UpdateOrder(Dress(c, d), u, t).reply.Ok? <==> Current(c, d.close, Change(u, now), t)
    ensures UpdateOrder(Dress(c, d), u, t).reply.Ok? ==>
              var m, n := UpdateOrder(c, u, now), UpdateOrder(Dress(c, d), u, t);
              n.core == Dress(m.core, d) && n.effects == m.effects
  {
    hide Modify, Resize, Remove, Revised, GetOrder, Expired;
    FoundDressed(c, d, u.id);
    if u.Withdraw? {
      RemoveDressed(c, d, u.id, ByUpdate);
    } else if GetOrder(c, u.id).Some? {
      var prior := GetOrder(c, u.id).value;
      var o := Revised(prior, u);
      RevisedTif(prior, u);
      if u.UpdateQuantity? {
        ResizeDressed(c, d, prior, o, now, t);
      } else {
        ModifyDressed(c, d, o, now, t);
      }
    }
  }

  // ---- One command on the live book and on the replayed one ----

  /** What the replay makes of a command: nothing if it is not recorded or was rejected. */
  function Reenact(b: Book, x: Book, cmd: Command, t: nat): Book {
    if EntryOf(cmd).None? || Failure(b.core, cmd).Some? then x else Step(x, Retimed(cmd, t))
  }

  predicate Repeats(b: Book, cmd: Command) {
    EntryOf(cmd).Some? && Failure(b.core, cmd).None?
  }

  /** The replayed book follows the live one through a command. */
  predicate Follows(b: Book, x: Book, cmd: Command, t: nat) {
    && (Repeats(b, cmd) ==> Failure(x.core, Retimed(cmd, t)).None?)
    && Twin(Step(b, cmd), Reenact(b, x, cmd, t))
  }

  lemma CommitTwin(b: Book, x: Book, c: Core, es: seq<Effect>)
    requires Twin(b, x)
    ensures Twin(Commit(b, c, es), Commit(x, Dress(c, x.core), es))
  {
    hide Register, Track, Emit;
  }

  /** The settings of the replayed book never change. */
  predicate SameSettings(x: Book, y: Book) {
    y.core.killed == x.core.killed && y.core.close == x.core.close
  }

  lemma SubmitFollows(b: Book, x: Book, cmd: Command, t: nat)
    requires Twin(b, x) && !x.core.killed && cmd.Submit? && Failure(b.core, cmd).None?
    ensures Follows(b, x, cmd, t) <==> Current(b.core, x.core.close, cmd, t)
    ensures Follows(b, x, cmd, t) ==> SameSettings(x, Reenact(b, x, cmd, t))
  {
    hide Add, Refusal, Commit, Expired, Twin;
    assert x.core == Dress(b.core, x.core) by { TwinCore(b, x); }
    AdmittedAgain(b.core, cmd.order, cmd.now);
    AddDressed(b.core, x.core, cmd.order, cmd.now, t);
    var m := Add(b.core, cmd.order, cmd.now);
    CommitTwin(b, x, m.core, m.effects);
    CommitCore(x, Dress(m.core, x.core), m.effects);
  }

  lemma TwinCore(b: Book, x: Book)
    requires Twin(b, x)
    ensures x.core == Dress(b.core, x.core)
  {
  }

  lemma ChangeFollows(b: Book, x: Book, cmd: Command, t: nat)
    requires Twin(b, x) && !x.core.killed && cmd.Change? && Failure(b.core, cmd).None?
    ensures Follows(b, x, cmd, t) <==> Current(b.core, x.core.close, cmd, t)
    ensures Follows(b, x, cmd, t) ==> SameSettings(x, Reenact(b, x, cmd, t))
  {
    hide UpdateOrder, Commit, Twin, Current;
    assert x.core == Dress(b.core, x.core) by { TwinCore(b, x); }
    UpdateDressed(b.core, x.core, cmd.update, cmd.now, t);
    var m := UpdateOrder(b.core, cmd.update, cmd.now);
    CommitTwin(b, x, m.core, m.effects);
    CommitCore(x, Dress(m.core, x.core), m.effects);
  }

  lemma MarketFollows(b: Book, x: Book, cmd: Command, t: nat)
    requires Twin(b, x) && !x.core.killed && cmd.Market? && Failure(b.core, cmd).None?
    ensures Follows(b, x, cmd, t) || EntryOf(cmd).None?
    ensures SameSettings(x, Reenact(b, x, cmd, t))
  {
    hide Take, Commit, Twin;
    assert x.core == Dress(b.core, x.core) by { TwinCore(b, x); }
    var tk := MarketTaker(cmd.id, cmd.user, cmd.side);
    TakeDressed(b.core, x.core, tk, cmd.stop);
    var m := Take(b.core, tk, cmd.stop);
    CommitTwin(b, x, m.core, m.effects);
    CommitCore(x, Dress(m.core, x.core), m.effects);
  }

  /** Cancellations that do not read the clock. */
  lemma CancelFollows(b: Book, x: Book, cmd: Command, t: nat)
    requires Twin(b, x)
    requires cmd.CancelOne? || cmd.CancelEverything? || cmd.CancelSide? || cmd.CancelUser? || cmd.CancelRange?
    ensures Follows(b, x, cmd, t) && SameSettings(x, Reenact(b, x, cmd, t))
  {
    hide Remove, CancelEach, CancelAll, Commit, Twin;
    assert x.core == Dress(b.core, x.core) && x.users == b.users by { TwinUsers(b, x); TwinCore(b, x); }
    var c, d := b.core, x.core;
    match cmd
    case CancelOne(id) => RemoveDressed(c, d, id, ByCancel); Committed(b, x, Cancel(c, id).core, Cancel(c, id).effects);
    case CancelEverything => CancelAllDressed(c, d); Committed(b, x, CancelAll(c).core, CancelAll(c).effects);
    case CancelSide(s) => EachFollows(b, x, Ids(Ascending(s, SideOf(c, s))));
    case CancelUser(u) =>
      WithoutList(b, x, u);
      EachFollows(b.(users := b.users - {u}), x.(users := x.users - {u}), ListOf(b.users, u));
    case CancelRange(s, low, high) =>
      EachFollows(b, x, Ids(Filter(InRange(low, high), Ascending(s, SideOf(c, s)))));
      Committed(b, x, c, []);
  }

  lemma TwinUsers(b: Book, x: Book)
    requires Twin(b, x)
    ensures x.users == b.users
  {
  }

  lemma WithoutList(b: Book, x: Book, user: User)
    requires Twin(b, x)
    ensures Twin(b.(users := b.users - {user}), x.(users := x.users - {user}))
  {
  }

  lemma Committed(b: Book, x: Book, c: Core, es: seq<Effect>)
    requires Twin(b, x)
    ensures Twin(Commit(b, c, es), Commit(x, Dress(c, x.core), es)) && SameSettings(x, Commit(x, Dress(c, x.core), es))
  {
    hide Commit, Twin;
    CommitTwin(b, x, c, es);
    CommitCore(x, Dress(c, x.core), es);
  }

  lemma EachFollows(b: Book, x: Book, ids: seq<Id>)
    requires Twin(b, x)
    ensures var m, n := CancelEach(b.core, ids), CancelEach(x.core, ids);
            && Twin(Commit(b, m.core, m.effects), Commit(x, n.core, n.effects))
            && SameSettings(x, Commit(x, n.core, n.effects))
  {
    hide CancelEach, Commit, Twin;
    assert x.core == Dress(b.core, x.core) by { TwinCore(b, x); }
    CancelEachDressed(b.core, x.core, ids);
    Committed(b, x, CancelEach(b.core, ids).core, CancelEach(b.core, ids).effects);
  }

  // ---- Eviction ----

  lemma {:induction false} FilterSame(p: Order -> bool, q: Order -> bool, orders: seq<Order>)
    requires forall o <- orders :: p(o) == q(o)
    ensures Filter(p, orders) == Filter(q, orders)
  {
    if orders != [] {
      assert orders[0] in orders && forall o <- orders[1..] :: o in orders;
      FilterSame(p, q, orders[1..]);
    }
  }

  /** After an eviction an order of the book is registered if and only if it was not expired. */
  lemma EvictRegisters(b: Book, x: Book, now: nat, o: Order)
    requires Sound(b) && Twin(b, x) && o in AllAscending(b.core)
    ensures o.tag.id in Step(x, Evict(now)).registry <==> !Expired(o.tif, now, x.core.close)
  {
    hide Good, CancelEach, Expired;
    var c, r, all, p := b.core, b.registry, AllAscending(b.core), ExpiredAt(now, x.core.close);
    var picked := Filter(p, all);
    var ids := Ids(picked);
    CancelEachRegisters(c, r, ids);
    CancelEachDressed(c, x.core, ids);
    PicksBook(c);
    RestingFound(c, r, o);
    FilterMember(p, all, o);
    IdsMember(picked, o.tag.id);
    if other :| other in picked && other.tag.id == o.tag.id {
      FilterMember(p, all, other);
      RestingFound(c, r, other);
    }
  }

  lemma EvictFollows(b: Book, x: Book, now: nat, t: nat)
    requires Sound(b) && Twin(b, x)
    ensures Follows(b, x, Evict(now), t) <==> Current(b.core, x.core.close, Evict(now), t)
    ensures Follows(b, x, Evict(now), t) ==> SameSettings(x, Reenact(b, x, Evict(now), t))
  {
    hide Sound, Twin, Step, Expired;
    var all := AllAscending(b.core);
    if Current(b.core, x.core.close, Evict(now), t) {
      EvictSame(b, x, now);
    } else {
      var o :| o in all && !(Expired(o.tif, now, b.core.close) <==> Expired(o.tif, now, x.core.close));
      TwinSelf(b);
      EvictRegisters(b, b, now, o);
      EvictRegisters(b, x, now, o);
      if Twin(Step(b, Evict(now)), Step(x, Evict(now))) {
        TwinRegistry(Step(b, Evict(now)), Step(x, Evict(now)));
      }
    }
  }

  lemma TwinSelf(b: Book)
    ensures Twin(b, b)
  {
  }

  lemma TwinRegistry(b: Book, x: Book)
    requires Twin(b, x)
    ensures x.registry == b.registry
  {
  }

  lemma EvictSame(b: Book, x: Book, now: nat)
    requires Twin(b, x) && Current(b.core, x.core.close, Evict(now), 0)
    ensures Twin(Step(b, Evict(now)), Step(x, Evict(now))) && SameSettings(x, Step(x, Evict(now)))
  {
    hide CancelEach, Commit, Twin, Expired;
    assert x.core == Dress(b.core, x.core) by { TwinCore(b, x); }
    var all, p, q := AllAscending(b.core), ExpiredAt(now, b.core.close), ExpiredAt(now, x.core.close);
    FilterSame(p, q, all);
    EachFollows(b, x, Ids(Filter(p, all)));
  }

  // ---- Every command ----

  /** Settings of the live book change nothing that the replayed book has to follow. */
  lemma SettingFollows(b: Book, x: Book, cmd: Command, t: nat)
    requires Twin(b, x) && Setting(cmd)
    ensures Follows(b, x, cmd, t) && Reenact(b, x, cmd, t) == x
  {
  }

  /** A command that is not repeated is followed if and only if it moves nothing. */
  lemma SkippedFollows(b: Book, x: Book, cmd: Command, t: nat)
    requires Sound(b) && Twin(b, x) && Wellformed(b.core.cfg, cmd) && !Setting(cmd) && !Repeats(b, cmd)
    ensures Follows(b, x, cmd, t) <==> Steady(b.core, cmd)
    ensures Reenact(b, x, cmd, t) == x
  {
    hide Sound, Steady, Step, Failure, Twin;
    if Failure(b.core, cmd).Some? {
      FailureKeepsExactly(b, cmd);
    } else {
      TakerKeepsExactly(b, cmd);
    }
    var es := StepMoves(b, cmd);
    assert SameSetup(b.core, Step(b, cmd).core) by { MovesSetup(b.core, b.registry, es, Step(b, cmd).core); }
    TwinOnce(b, Step(b, cmd), x);
  }

  lemma MovesSetup(c: Core, r: map<Id, Tag>, es: seq<Effect>, c': Core)
    requires Moves(c, r, es, c')
    ensures SameSetup(c, c')
  {
  }

  lemma TwinOnce(b: Book, b': Book, x: Book)
    requires Twin(b, x) && SameSetup(b.core, b'.core)
    ensures Twin(b', x) <==> b' == b
  {
  }

  /** The replayed book follows the live one through a command if and only if the command is
      kept. */
  lemma KeptExactly(b: Book, x: Book, cmd: Command, t: nat)
    requires Sound(b) && Twin(b, x) && !x.core.killed && Wellformed(b.core.cfg, cmd)
    ensures Follows(b, x, cmd, t) <==> Kept(b.core, x.core.close, cmd, t)
    ensures Follows(b, x, cmd, t) ==> SameSettings(x, Reenact(b, x, cmd, t))
  {
    hide Sound, Steady, Step, Failure, Twin, Current, Follows, Reenact, Wellformed;
    if Setting(cmd) {
      SettingFollows(b, x, cmd, t);
    } else if !Repeats(b, cmd) {
      SkippedFollows(b, x, cmd, t);
    } else if cmd.Submit? {
      SubmitFollows(b, x, cmd, t);
    } else if cmd.Change? {
      ChangeFollows(b, x, cmd, t);
    } else if cmd.Evict? {
      EvictFollows(b, x, cmd.now, t);
    } else {
      OtherCurrent(b.core, x.core.close, cmd, t);
      if cmd.Market? {
        MarketFollows(b, x, cmd, t);
      } else {
        CancelFollows(b, x, cmd, t);
      }
    }
  }

  lemma OtherCurrent(c: Core, close: Option<nat>, cmd: Command, t: nat)
    requires !cmd.Submit? && !cmd.Change? && !cmd.Evict?
    ensures Current(c, close, cmd, t)
  {
  }

  // ---- Whole runs ----

  /** The first command of the run, as the replay meets it. */
  predicate Passes(clock: Clock, b: Book, x: Book, first: nat, cmd: Command) {
    && (Repeats(b, cmd) ==> Failure(x.core, Retimed(cmd, clock(first))).None?)
    && (EntryOf(cmd).Some? ==> first != U64_MAX)
  }

  lemma ReplayFirst(clock: Clock, b: Book, x: Book, last: nat, first: nat, cmds: seq<Command>)
    requires cmds != []
    ensures var cmd := cmds[0]; var y := Replay(clock, x, last, first, Journal(b, first, cmds));
            if Passes(clock, b, x, first, cmd)
            then y == Replay(clock, Reenact(b, x, cmd, clock(first)), if Repeats(b, cmd) then first else last, NextNumber(cmd, first),
                             Journal(Step(b, cmd), NextNumber(cmd, first), cmds[1..]))
            else y.error.Some?
  {
    hide Step, Failure, EntryOf, At, Retimed;
    var cmd := cmds[0];
    if EntryOf(cmd).Some? {
      EntryRoundTrip(cmd, EntryOf(cmd).value, clock(first));
      var rest := Journal(Step(b, cmd), first + 1, cmds[1..]);
      var r := Record(first, EntryOf(cmd).value, Failure(b.core, cmd).Some?);
      assert ([r] + rest)[1..] == rest;
    }
  }

  lemma RunFirst(b: Book, cmds: seq<Command>)
    requires cmds != []
    ensures Run(b, cmds) == Run(Step(b, cmds[0]), cmds[1..])
  {
    hide Step;
  }

  /** One command alone. */
  lemma RebuiltOne(clock: Clock, b: Book, x: Book, last: nat, first: nat, cmd: Command)
    ensures Rebuilt(clock, b, x, last, first, [cmd])
            <==> Follows(b, x, cmd, clock(first)) && (EntryOf(cmd).Some? ==> first != U64_MAX)
  {
    hide Step, Failure, Replay, Journal, EntryOf, Run, Twin, Reenact, Retimed;
    ReplayFirst(clock, b, x, last, first, [cmd]);
    RunFirst(b, [cmd]);
    RunEmpty(Step(b, cmd));
    assert [cmd][1..] == [];
    NothingWritten(clock, Step(b, cmd), Reenact(b, x, cmd, clock(first)), if Repeats(b, cmd) then first else last, NextNumber(cmd, first));
  }

  lemma NothingWritten(clock: Clock, b: Book, x: Book, last: nat, first: nat)
    ensures Journal(b, first, []) == [] && Replay(clock, x, last, first, []) == Replayed(x, last, None)
  {
  }

  lemma RebuiltMore(clock: Clock, b: Book, x: Book, last: nat, first: nat, cmds: seq<Command>)
    requires cmds != [] && Passes(clock, b, x, first, cmds[0])
    ensures Rebuilt(clock, b, x, last, first, cmds)
            <==> Rebuilt(clock, Step(b, cmds[0]), Reenact(b, x, cmds[0], clock(first)), if Repeats(b, cmds[0]) then first else last,
                         NextNumber(cmds[0], first), cmds[1..])
  {
    hide Step, Failure, Replay, Journal, EntryOf, Run, Twin, Reenact, Passes;
    ReplayFirst(clock, b, x, last, first, cmds);
    RunFirst(b, cmds);
  }

  lemma RebuiltNone(clock: Clock, b: Book, x: Book, last: nat, first: nat)
    requires Twin(b, x)
    ensures Rebuilt(clock, b, x, last, first, [])
  {
    hide Step, Failure;
    NothingWritten(clock, b, x, last, first);
  }

  /** From the second command on. */
  lemma RebuiltTail(clock: Clock, b: Book, x: Book, last: nat, first: nat, cmds: seq<Command>)
    requires cmds != [] && Passes(clock, b, x, first, cmds[0]) && Twin(b, x)
    ensures RebuiltThroughout(clock, b, x, last, first, cmds)
            <==> RebuiltThroughout(clock, Step(b, cmds[0]), Reenact(b, x, cmds[0], clock(first)),
                                   if Repeats(b, cmds[0]) then first else last, NextNumber(cmds[0], first), cmds[1..])
  {
    hide Step, Failure, EntryOf, Twin, Reenact, Passes, Rebuilt, Repeats;
    var b', x', last', first' := Step(b, cmds[0]), Reenact(b, x, cmds[0], clock(first)), if Repeats(b, cmds[0]) then first else last, NextNumber(cmds[0], first);
    var rest := cmds[1..];
    if RebuiltThroughout(clock, b, x, last, first, cmds) {
      forall n: nat | n <= |rest| ensures Rebuilt(clock, b', x', last', first', rest[..n]) {
        var m := n + 1;
        assert Rebuilt(clock, b, x, last, first, cmds[..m]);
        assert cmds[..m][0] == cmds[0] && cmds[..m][1..] == rest[..n];
        RebuiltMore(clock, b, x, last, first, cmds[..m]);
      }
    }
    if RebuiltThroughout(clock, b', x', last', first', rest) {
      forall n: nat | n <= |cmds| ensures Rebuilt(clock, b, x, last, first, cmds[..n]) {
        if n == 0 {
          RebuiltNone(clock, b, x, last, first);
        } else {
          var m := n - 1;
          assert Rebuilt(clock, b', x', last', first', rest[..m]);
          assert cmds[..n][0] == cmds[0] && cmds[..n][1..] == rest[..m];
          RebuiltMore(clock, b, x, last, first, cmds[..n]);
        }
      }
    }
  }

  /** The replay rebuilds the live book at every moment, up to its two settings, if and only if
      every command is kept. */
  lemma {:induction false} ReplayExactly(clock: Clock, b: Book, x: Book, last: nat, first: nat, cmds: seq<Command>)
    requires Sound(b) && Twin(b, x) && !x.core.killed && forall cmd <- cmds :: Wellformed(b.core.cfg, cmd)
    ensures RebuiltThroughout(clock, b, x, last, first, cmds) <==> AllKept(clock, b, x.core.close, first, cmds)
    decreases |cmds|
  {
    hide Sound, Step, Failure, EntryOf, Twin, Kept, Wellformed, Rebuilt, Reenact, Repeats;
    if cmds == [] {
      RebuiltNone(clock, b, x, last, first);
    } else {
      var cmd, t := cmds[0], clock(first);
      assert cmd in cmds && forall c <- cmds[1..] :: c in cmds;
      KeptExactly(b, x, cmd, t);
      RebuiltOne(clock, b, x, last, first, cmd);
      if Follows(b, x, cmd, t) && (EntryOf(cmd).Some? ==> first != U64_MAX) {
        StepSound(b, cmd);
        RebuiltTail(clock, b, x, last, first, cmds);
        ReplayExactly(clock, Step(b, cmd), Reenact(b, x, cmd, t), if Repeats(b, cmd) then first else last, NextNumber(cmd, first), cmds[1..]);
      } else {
        assert cmds[..1] == [cmd];
      }
    }
  }

  /** From the empty book, in every configuration: the journal rebuilds the live book at every
      moment if and only if every command of the run is kept. */
  lemma JournalRebuildsExactly(clock: Clock, cfg: Config, cmds: seq<Command>)
    requires forall cmd <- cmds :: Wellformed(cfg, cmd)
    ensures RebuiltThroughout(clock, Empty(cfg), Empty(cfg), 0, 0, cmds) <==> AllKept(clock, Empty(cfg), None, 0, cmds)
  {
    hide Wellformed, AllKept, RebuiltThroughout;
    EmptyInv(cfg);
    TwinSelf(Empty(cfg));
    ReplayExactly(clock, Empty(cfg), Empty(cfg), 0, 0, cmds);
  }

  // ---- A replay that reads the live times, and a close that is never set ----

  /** The clock of the replay shows what the live commands read. */
  predicate OnTime(clock: Clock, first: nat, cmds: seq<Command>)
    decreases |cmds|
  {
    cmds == [] ||
    (&& (cmds[0].Submit? || cmds[0].Change? ==> clock(first) == cmds[0].now)
     && OnTime(clock, NextNumber(cmds[0], first), cmds[1..]))
  }

  /** Every command that the replay skips moves nothing. */
  predicate AllSteady(b: Book, cmds: seq<Command>)
    decreases |cmds|
  {
    cmds == [] ||
    (&& (Setting(cmds[0]) || Repeats(b, cmds[0]) || Steady(b.core, cmds[0]))
     && AllSteady(Step(b, cmds[0]), cmds[1..]))
  }

  /** A command that succeeded gets the same verdict at the same time and close. */
  lemma CurrentNow(c: Core, cmd: Command, t: nat)
    requires Failure(c, cmd).None? && (cmd.Submit? || cmd.Change? ==> t == cmd.now)
    ensures Current(c, c.close, cmd, t)
  {
    hide Expired, GetOrder;
    if cmd.Submit? {
      AdmittedAgain(c, cmd.order, cmd.now);
      ValidNow(c, cmd.order, cmd.now);
    } else if cmd.Change? {
      UpdatedNow(c, cmd.update, cmd.now);
    }
  }

  lemma ValidNow(c: Core, o: Order, now: nat)
    requires Refusal(c, o, now).None?
    ensures !Expired(o.tif, now, c.close)
  {
    hide Expired;
  }

  lemma UpdatedNow(c: Core, u: Update, now: nat)
    requires UpdateOrder(c, u, now).reply.Ok?
    ensures Current(c, c.close, Change(u, now), now)
  {
    hide Expired, GetOrder, Revised, Add, Cancel, Reaches;
    if !u.Withdraw? && GetOrder(c, u.id).Some? {
      var prior := GetOrder(c, u.id).value;
      RevisedTif(prior, u);
      assert Validate(c, Revised(prior, u), now).None?;
    }
  }

  lemma {:induction false} OnTimeKept(clock: Clock, b: Book, first: nat, cmds: seq<Command>)
    requires Sound(b) && OnTime(clock, first, cmds) && first + |cmds| <= U64_MAX
    requires forall cmd <- cmds :: Wellformed(b.core.cfg, cmd) && !cmd.SetClose?
    ensures AllKept(clock, b, b.core.close, first, cmds) <==> AllSteady(b, cmds)
    decreases |cmds|
  {
    hide Sound, Step, Failure, EntryOf, Steady, Wellformed, Current;
    if cmds != [] {
      var cmd := cmds[0];
      assert cmd in cmds && forall c <- cmds[1..] :: c in cmds;
      if Repeats(b, cmd) {
        CurrentNow(b.core, cmd, clock(first));
      }
      StepSound(b, cmd);
      CloseKept(b, cmd);
      OnTimeKept(clock, Step(b, cmd), NextNumber(cmd, first), cmds[1..]);
    }
  }

  lemma CloseKept(b: Book, cmd: Command)
    requires Sound(b) && Wellformed(b.core.cfg, cmd) && !cmd.SetClose?
    ensures Step(b, cmd).core.close == b.core.close
  {
    hide Sound, Step, Wellformed;
    if cmd.SetKillSwitch? {
      SwitchStep(b, cmd);
    } else {
      var es := StepMoves(b, cmd);
      MovesSetup(b.core, b.registry, es, Step(b, cmd).core);
    }
  }

  lemma SwitchStep(b: Book, cmd: Command)
    requires cmd.SetKillSwitch?
    ensures Step(b, cmd).core.close == b.core.close
  {
  }

  /** Where the replay reads the live times and no market close is set, the journal of a run
      from the empty book rebuilds it at every moment if and only if every command that the
      replay skips moved nothing; kill-switch changes need no record. */
  lemma OnTimeRebuildsExactly(clock: Clock, cfg: Config, cmds: seq<Command>)
    requires OnTime(clock, 0, cmds) && |cmds| <= U64_MAX
    requires forall cmd <- cmds :: Wellformed(cfg, cmd) && !cmd.SetClose?
    ensures RebuiltThroughout(clock, Empty(cfg), Empty(cfg), 0, 0, cmds) <==> AllSteady(Empty(cfg), cmds)
  {
    hide Wellformed, AllKept, RebuiltThroughout, AllSteady, OnTime;
    EmptyInv(cfg);
    JournalRebuildsExactly(clock, cfg, cmds);
    OnTimeKept(clock, Empty(cfg), 0, cmds);
  }
}
