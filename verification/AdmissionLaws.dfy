/** The order of a user's list. It is documented as the order of admission, appended to and
    never reordered; a filled or withdrawn order, however, is swapped out of it. */
module AdmissionLaws {
  import opened Types
  import opened Seqs
  import opened Effects

  /** The documented list of `user`: admissions are appended, what leaves is taken out. */
  function AdmitStep(user: User): (seq<Id>, Effect) -> seq<Id> {
    (ids: seq<Id>, e: Effect) =>
      match e
      case Rested(t) => if t.user == user then ids + [t.id] else ids
      case Cancelled(t) => if t.user == user then Filter(IsNot(t.id), ids) else ids
      case Filled(t) => if t.user == user then Filter(IsNot(t.id), ids) else ids
      case Withdrawn(t) => if t.user == user then Filter(IsNot(t.id), ids) else ids
      case _ => ids
  }

  function Admitted(user: User, ids: seq<Id>, es: seq<Effect>): seq<Id> {
    Fold(AdmitStep(user), ids, es)
  }

  /** A fill or withdrawal of the user's order takes one of the last two entries. */
  predicate NearEnd(users: map<User, seq<Id>>, e: Effect, user: User) {
    (e.Filled? || e.Withdrawn?) && e.tag.user == user ==>
      IndexOf(ListOf(users, user), e.tag.id) + 2 >= |ListOf(users, user)|
  }

  predicate AllNearEnd(users: map<User, seq<Id>>, es: seq<Effect>, user: User)
    decreases |es|
  {
    es == [] || (NearEnd(users, es[0], user) && AllNearEnd(TrackStep(users, es[0]), es[1..], user))
  }

  /** After every prefix of the effects the kept list is the documented one. */
  predicate InOrderThroughout(users: map<User, seq<Id>>, ids: seq<Id>, es: seq<Effect>, user: User)
    decreases |es|
  {
    && ListOf(users, user) == ids
    && (es != [] ==> InOrderThroughout(TrackStep(users, es[0]), AdmitStep(user)(ids, es[0]), es[1..], user))
  }

  lemma {:induction false} FilterOne(ids: seq<Id>, k: nat)
    requires k < |ids| && NoDup(ids)
    ensures Filter(IsNot(ids[k]), ids) == ids[..k] + ids[k + 1..]
  {
    if k == 0 {
      FilterAll(IsNot(ids[0]), ids[1..]);
    } else {
      FilterOne(ids[1..], k - 1);
      assert ids[..k] == [ids[0]] + ids[1..][..k - 1];
      assert ids[1..][k..] == ids[k + 1..];
    }
  }

  /** Swapping the last entry in removes in order exactly at the last two positions. */
  lemma SwapKeepsOrderExactly(ids: seq<Id>, k: nat)
    requires k < |ids| && NoDup(ids)
    ensures SwapRemove(ids, k) == Filter(IsNot(ids[k]), ids) <==> k + 2 >= |ids|
  {
    FilterOne(ids, k);
    var kept := ids[..k] + ids[k + 1..];
    if k + 2 < |ids| {
      assert SwapRemove(ids, k)[k] == ids[|ids| - 1] && kept[k] == ids[k + 1];
    }
  }

  lemma SwapStep(users: map<User, seq<Id>>, r: map<Id, Tag>, t: Tag, user: User)
    requires Tracks(users, r) && t.id in r && r[t.id] == t && t.user == user
    ensures var ids := ListOf(users, user);
            ListOf(Untrack(users, user, t.id), user) == Filter(IsNot(t.id), ids) <==> IndexOf(ids, t.id) + 2 >= |ids|
  {
    var ids := ListOf(users, user);
    SwapKeepsOrderExactly(ids, IndexOf(ids, t.id));
  }

  /** One effect keeps a list in order of admission if and only if it is near the end. */
  lemma StepKeepsOrderExactly(users: map<User, seq<Id>>, r: map<Id, Tag>, e: Effect, user: User)
    requires Tracks(users, r) && LegalStep(r, e)
    ensures ListOf(TrackStep(users, e), user) == AdmitStep(user)(ListOf(users, user), e) <==> NearEnd(users, e, user)
  {
    hide Untrack, IndexOf, Tracks;
    if (e.Filled? || e.Withdrawn?) && e.tag.user == user {
      SwapStep(users, r, e.tag, user);
    } else if e.Filled? || e.Withdrawn? {
      OthersKept(users, e.tag.user, e.tag.id, user);
    }
  }

  lemma OthersKept(users: map<User, seq<Id>>, owner: User, id: Id, user: User)
    requires owner != user
    ensures ListOf(Untrack(users, owner, id), user) == ListOf(users, user)
  {
  }

  /** A user's list follows the order of admission throughout if and only if every fill and
      withdrawal takes one of its last two entries. */
  lemma {:induction false} AdmissionOrderExactly(users: map<User, seq<Id>>, r: map<Id, Tag>, es: seq<Effect>, user: User)
    requires Tracks(users, r) && Keyed(r) && Legal(r, es)
    ensures InOrderThroughout(users, ListOf(users, user), es, user) <==> AllNearEnd(users, es, user)
    decreases |es|
  {
    hide NearEnd, Tracks, Keyed, TrackStep, LegalStep;
    if es != [] {
      var next := TrackStep(users, es[0]);
      StepKeepsOrderExactly(users, r, es[0], user);
      TracksStep(users, r, es[0]);
      AdmissionOrderExactly(next, RegisterStep(r, es[0]), es[1..], user);
    }
  }

  /** Then the list ends as documented. */
  lemma {:induction false} AdmissionOrder(users: map<User, seq<Id>>, ids: seq<Id>, es: seq<Effect>, user: User)
    requires InOrderThroughout(users, ids, es, user)
    ensures ListOf(Track(users, es), user) == Admitted(user, ids, es)
    decreases |es|
  {
    if es != [] {
      AdmissionOrder(TrackStep(users, es[0]), AdmitStep(user)(ids, es[0]), es[1..], user);
    }
  }
}
