/** The log of what an operation does, in the order the engine does it, and the
    structures that are kept in step with the queues by replaying that log: the
    registry of resting orders, the location index, the per-user index and the
    outbound event feed. */
module Effects {
  import opened Types
  import opened Seqs

  datatype Trade = Trade(maker: Id, owner: User, price: Price, quantity: nat)

  function TradeSize(t: Trade): nat {
    t.quantity
  }

  /** `Withdrawn` is a cancellation whose entry in the user index is found by id and
      removed by swapping, as it is for a filled maker. */
  datatype Effect =
    | LevelChanged(side: Side, price: Price, quantity: nat)
    | Rested(tag: Tag)
    | Cancelled(tag: Tag)
    | Filled(tag: Tag)
    | Withdrawn(tag: Tag)
    | Traded(taker: Id, trades: seq<Trade>)

  datatype Location = Location(price: Price, side: Side)

  // ---- Registry and location index ----

  function RegisterStep(r: map<Id, Tag>, e: Effect): map<Id, Tag> {
    match e
    case Rested(t) => r[t.id := t]
    case Cancelled(t) => r - {t.id}
    case Filled(t) => r - {t.id}
    case Withdrawn(t) => r - {t.id}
    case _ => r
  }

  function Register(r: map<Id, Tag>, es: seq<Effect>): map<Id, Tag> {
    Fold(RegisterStep, r, es)
  }

  function LocateStep(l: map<Id, Location>, e: Effect): map<Id, Location> {
    match e
    case Rested(t) => l[t.id := Location(t.price, t.side)]
    case Cancelled(t) => l - {t.id}
    case Filled(t) => l - {t.id}
    case Withdrawn(t) => l - {t.id}
    case _ => l
  }

  function Locate(l: map<Id, Location>, es: seq<Effect>): map<Id, Location> {
    Fold(LocateStep, l, es)
  }

  /** Only a registered order leaves, and only an unknown id comes to rest. */
  predicate LegalStep(r: map<Id, Tag>, e: Effect) {
    match e
    case Rested(t) => t.id !in r
    case Cancelled(t) => t.id in r && r[t.id] == t
    case Filled(t) => t.id in r && r[t.id] == t
    case Withdrawn(t) => t.id in r && r[t.id] == t
    case _ => true
  }

  predicate Legal(r: map<Id, Tag>, es: seq<Effect>)
    decreases |es|
  {
    es == [] || (LegalStep(r, es[0]) && Legal(RegisterStep(r, es[0]), es[1..]))
  }

  predicate Keyed(r: map<Id, Tag>) {
    forall id <- r :: r[id].id == id
  }

  predicate Locates(l: map<Id, Location>, r: map<Id, Tag>) {
    && l.Keys == r.Keys
    && forall id <- r :: l[id] == Location(r[id].price, r[id].side)
  }

  lemma {:induction false} LegalAppend(r: map<Id, Tag>, a: seq<Effect>, b: seq<Effect>)
    ensures Legal(r, a + b) <==> Legal(r, a) && Legal(Register(r, a), b)
    decreases |a|
  {
    if a == [] {
      assert a + b == b;
    } else {
      assert (a + b)[0] == a[0] && (a + b)[1..] == a[1..] + b;
      LegalAppend(RegisterStep(r, a[0]), a[1..], b);
    }
  }

  lemma {:induction false} LocatesKept(l: map<Id, Location>, r: map<Id, Tag>, es: seq<Effect>)
    requires Locates(l, r) && Keyed(r)
    ensures Locates(Locate(l, es), Register(r, es)) && Keyed(Register(r, es))
    decreases |es|
  {
    if es != [] {
      LocatesKept(LocateStep(l, es[0]), RegisterStep(r, es[0]), es[1..]);
    }
  }

  // ---- Weights of the orders that left and came ----

  function Left(f: Tag -> nat): Effect -> nat {
    (e: Effect) => match e
      case Cancelled(t) => f(t)
      case Filled(t) => f(t)
      case Withdrawn(t) => f(t)
      case _ => 0
  }

  function Came(f: Tag -> nat): Effect -> nat {
    (e: Effect) => if e.Rested? then f(e.tag) else 0
  }

  function Is(t: Tag): Tag -> nat {
    (x: Tag) => if x == t then 1 else 0
  }

  function Registered(r: map<Id, Tag>, t: Tag): nat {
    if t.id in r && r[t.id] == t then 1 else 0
  }

  /** Replaying legal effects moves the registry by exactly what left and came. */
  lemma {:induction false} RegisterCounts(r: map<Id, Tag>, es: seq<Effect>, t: Tag)
    requires Legal(r, es)
    ensures Registered(Register(r, es), t) + Sum(Left(Is(t)), es) == Registered(r, t) + Sum(Came(Is(t)), es)
    decreases |es|
  {
    if es != [] {
      RegisterCounts(RegisterStep(r, es[0]), es[1..], t);
    }
  }

  /** Effects that only remove, and remove no more than is registered, are legal. */
  lemma {:induction false} RemovalLegal(r: map<Id, Tag>, es: seq<Effect>)
    requires forall e <- es :: !e.Rested?
    requires forall t :: Sum(Left(Is(t)), es) <= Registered(r, t)
    ensures Legal(r, es)
    decreases |es|
  {
    if es != [] {
      var e, r' := es[0], RegisterStep(r, es[0]);
      if e.Cancelled? || e.Filled? || e.Withdrawn? {
        assert Sum(Left(Is(e.tag)), es) == 1 + Sum(Left(Is(e.tag)), es[1..]);
      }
      forall t ensures Sum(Left(Is(t)), es[1..]) <= Registered(r', t) {
        assert Sum(Left(Is(t)), es) <= Registered(r, t);
      }
      RemovalLegal(r', es[1..]);
    }
  }

  // ---- User index ----

  predicate NoDup(ids: seq<Id>) {
    forall i, j :: 0 <= i < j < |ids| ==> ids[i] != ids[j]
  }

  function IsNot(id: Id): Id -> bool {
    (x: Id) => x != id
  }

  function IndexOf(ids: seq<Id>, id: Id): (k: nat)
    ensures k <= |ids|
    ensures k < |ids| ==> ids[k] == id
    ensures forall i :: 0 <= i < k ==> ids[i] != id
  {
    if ids == [] || ids[0] == id then 0 else 1 + IndexOf(ids[1..], id)
  }

  /** Remove position `k` by moving the last element into it. */
  function SwapRemove(ids: seq<Id>, k: nat): seq<Id>
    requires k < |ids|
  {
    ids[k := ids[|ids| - 1]][..|ids| - 1]
  }

  /** Replace the list of `user`; an empty list drops the entry. */
  function SetList(users: map<User, seq<Id>>, user: User, ids: seq<Id>): map<User, seq<Id>> {
    if ids == [] then users - {user} else users[user := ids]
  }

  function ListOf(users: map<User, seq<Id>>, user: User): seq<Id> {
    if user in users then users[user] else []
  }

  function Untrack(users: map<User, seq<Id>>, user: User, id: Id): map<User, seq<Id>> {
    var ids := ListOf(users, user);
    var k := IndexOf(ids, id);
    if k < |ids| then SetList(users, user, SwapRemove(ids, k)) else users
  }

  function TrackStep(users: map<User, seq<Id>>, e: Effect): map<User, seq<Id>> {
    match e
    case Rested(t) => users[t.user := ListOf(users, t.user) + [t.id]]
    case Cancelled(t) =>
      if t.user in users then SetList(users, t.user, Filter(IsNot(t.id), users[t.user])) else users
    case Filled(t) => Untrack(users, t.user, t.id)
    case Withdrawn(t) => Untrack(users, t.user, t.id)
    case _ => users
  }

  function Track(users: map<User, seq<Id>>, es: seq<Effect>): map<User, seq<Id>> {
    Fold(TrackStep, users, es)
  }

  predicate Tracks(users: map<User, seq<Id>>, r: map<Id, Tag>) {
    && (forall id <- r :: id in ListOf(users, r[id].user))
    && (forall u <- users :: users[u] != [] && NoDup(users[u]))
    && (forall u <- users :: forall id <- users[u] :: id in r && r[id].user == u)
  }

  lemma {:induction false} FilterNoDup(ids: seq<Id>, id: Id)
    requires NoDup(ids)
    ensures NoDup(Filter(IsNot(id), ids))
  {
    if ids != [] {
      FilterNoDup(ids[1..], id);
      FilterMember(IsNot(id), ids[1..], ids[0]);
    }
  }

  lemma SwapRemoveMembers(ids: seq<Id>, k: nat)
    requires k < |ids| && NoDup(ids)
    ensures NoDup(SwapRemove(ids, k))
    ensures forall id :: id in SwapRemove(ids, k) <==> id in ids && id != ids[k]
  {
    var out := SwapRemove(ids, k);
    forall id ensures id in out <==> id in ids && id != ids[k] {
      if id in ids && id != ids[k] {
        var i :| 0 <= i < |ids| && ids[i] == id;
        assert out[if i == |ids| - 1 then k else i] == id;
      }
    }
  }

  lemma TracksDrop(users: map<User, seq<Id>>, r: map<Id, Tag>, t: Tag, ids: seq<Id>)
    requires Tracks(users, r) && Keyed(r)
    requires t.id in r && r[t.id] == t
    requires NoDup(ids) && forall id :: id in ids <==> id in ListOf(users, t.user) && id != t.id
    ensures Tracks(SetList(users, t.user, ids), r - {t.id})
  {
    var users', r' := SetList(users, t.user, ids), r - {t.id};
    forall id | id in r' ensures id in ListOf(users', r'[id].user) {
      assert id in ListOf(users, r[id].user) && id != t.id;
    }
  }

  lemma TracksUntrack(users: map<User, seq<Id>>, r: map<Id, Tag>, t: Tag)
    requires Tracks(users, r) && Keyed(r)
    requires t.id in r && r[t.id] == t
    ensures Tracks(Untrack(users, t.user, t.id), r - {t.id})
  {
    var ids := ListOf(users, t.user);
    SwapRemoveMembers(ids, IndexOf(ids, t.id));
    TracksDrop(users, r, t, SwapRemove(ids, IndexOf(ids, t.id)));
  }

  lemma TracksStep(users: map<User, seq<Id>>, r: map<Id, Tag>, e: Effect)
    requires Tracks(users, r) && Keyed(r) && LegalStep(r, e)
    ensures Tracks(TrackStep(users, e), RegisterStep(r, e))
    ensures Keyed(RegisterStep(r, e))
  {
    match e
    case Cancelled(t) =>
      var ids := ListOf(users, t.user);
      FilterNoDup(ids, t.id);
      forall id ensures id in Filter(IsNot(t.id), ids) <==> id in ids && id != t.id {
        FilterMember(IsNot(t.id), ids, id);
      }
      TracksDrop(users, r, t, Filter(IsNot(t.id), ids));
    case Filled(t) => TracksUntrack(users, r, t);
    case Withdrawn(t) => TracksUntrack(users, r, t);
    case Rested(t) =>
      TracksAdd(users, r, t);
    case _ =>
  }

  lemma TracksAdd(users: map<User, seq<Id>>, r: map<Id, Tag>, t: Tag)
    requires Tracks(users, r) && Keyed(r)
    requires t.id !in r
    ensures Tracks(users[t.user := ListOf(users, t.user) + [t.id]], r[t.id := t])
  {
    assert t.id !in ListOf(users, t.user);
  }

  /** The per-user lists hold exactly the registered ids of each user, each once. */
  lemma {:induction false} TracksKept(users: map<User, seq<Id>>, r: map<Id, Tag>, es: seq<Effect>)
    requires Tracks(users, r) && Keyed(r) && Legal(r, es)
    ensures Tracks(Track(users, es), Register(r, es))
    decreases |es|
  {
    if es != [] {
      TracksStep(users, r, es[0]);
      TracksKept(TrackStep(users, es[0]), RegisterStep(r, es[0]), es[1..]);
    }
  }

  // ---- Outbound feed ----

  datatype Event =
    | LevelEvent(number: nat, side: Side, price: Price, quantity: nat)
    | TradeEvent(number: nat, taker: Id, trades: seq<Trade>)

  /** What both listeners have received, and the next sequence number. */
  datatype Feed = Feed(events: seq<Event>, next: nat)

  function EmitStep(feed: Feed, e: Effect): Feed {
    match e
    case LevelChanged(s, p, q) => Feed(feed.events + [LevelEvent(feed.next, s, p, q)], feed.next + 1)
    case Traded(id, ts) => Feed(feed.events + [TradeEvent(feed.next, id, ts)], feed.next + 1)
    case _ => feed
  }

  function Emit(feed: Feed, es: seq<Effect>): Feed {
    Fold(EmitStep, feed, es)
  }

  /** The events carry consecutive numbers that end just below `next`. */
  predicate Consecutive(feed: Feed) {
    && |feed.events| <= feed.next
    && forall i :: 0 <= i < |feed.events| ==> feed.events[i].number == feed.next - |feed.events| + i
  }

  lemma {:induction false} ConsecutiveKept(feed: Feed, es: seq<Effect>)
    requires Consecutive(feed)
    ensures Consecutive(Emit(feed, es))
    decreases |es|
  {
    if es != [] {
      ConsecutiveKept(EmitStep(feed, es[0]), es[1..]);
    }
  }

  /** What a consumer that keeps the last quantity per side and price holds. */
  function SeenStep(side: Side, price: Price): (nat, Event) -> nat {
    (held: nat, e: Event) => if e.LevelEvent? && e.side == side && e.price == price then e.quantity else held
  }

  function Seen(events: seq<Event>, side: Side, price: Price): nat {
    Fold(SeenStep(side, price), 0, events)
  }

  function ShowStep(side: Side, price: Price): (nat, Effect) -> nat {
    (held: nat, e: Effect) => if e.LevelChanged? && e.side == side && e.price == price then e.quantity else held
  }

  /** The quantity a consumer holding `held` ends with after the effects. */
  function Shown(es: seq<Effect>, side: Side, price: Price, held: nat): nat {
    Fold(ShowStep(side, price), held, es)
  }

  lemma {:induction false} SeenShown(feed: Feed, es: seq<Effect>, side: Side, price: Price)
    ensures Seen(Emit(feed, es).events, side, price) == Shown(es, side, price, Seen(feed.events, side, price))
    decreases |es|
  {
    if es != [] {
      var next := EmitStep(feed, es[0]);
      SeenShown(next, es[1..], side, price);
      if next != feed {
        var e := next.events[|feed.events|];
        assert next.events == feed.events + [e];
        FoldAppend(SeenStep(side, price), 0, feed.events, [e]);
        assert Fold(SeenStep(side, price), Seen(feed.events, side, price), [e]) == SeenStep(side, price)(Seen(feed.events, side, price), e);
      }
    }
  }
}
