/**
 * The lending use-case layer the services call, as an abstract store: a
 * map from lending id to record plus the creation order of the ids. Its
 * internals (the repositories, the database) are not part of this model;
 * each operation below is the effect its name promises, stated as the
 * contract the core relies on. Every mutating call is recorded in the
 * shared event log whether or not it finds its lending.
 */
module Store {
  import opened Wrappers
  import opened Events

  /** An instant, as an opaque ordered number. */
  type Time = int

  /** A caller's identity as the user directory resolves it. */
  datatype User = User(id: UserId, name: string)

  datatype Lending = Lending(
    id: LendingId,
    ownerId: UserId,
    ownerName: string,
    borrowerId: Option<UserId>,
    borrowerName: Option<string>,
    content: string,
    deadline: Time,
    isConfirmingReturned: bool,
    returnedAt: Option<Time>,
    sentUrlToBorrower: bool)

  /** The exceptions the core raises or lets through. */
  datatype Error = NotFound | BorrowerAlreadyExists | InvalidOwner

  type Lendings = map<LendingId, Lending>

  /** A lending as created by its owner: no borrower, not confirming, open. */
  function NewLending(id: LendingId, owner: User, content: string, deadline: Time): Lending {
    Lending(id, owner.id, owner.name, None, None, content, deadline, false, None, false)
  }

  // The effect of each state-changing use-case call on the map of lendings.

  function StartConfirming(m: Lendings, id: LendingId): Lendings {
    if id in m then m[id := m[id].(isConfirmingReturned := true)] else m
  }

  function FinishConfirming(m: Lendings, id: LendingId): Lendings {
    if id in m then m[id := m[id].(isConfirmingReturned := false)] else m
  }

  function RegisterReturn(m: Lendings, id: LendingId, now: Time): Lendings {
    if id in m then m[id := m[id].(returnedAt := Some(now))] else m
  }

  function MarkSentUrl(m: Lendings, id: LendingId): Lendings {
    if id in m then m[id := m[id].(sentUrlToBorrower := true)] else m
  }

  /** The lending with `borrower` bound to it. */
  function Bind(l: Lending, borrower: User): Lending {
    l.(borrowerId := Some(borrower.id), borrowerName := Some(borrower.name))
  }

  /**
   * Association succeeds unless another user is already bound; the same
   * test decides whether a user may see the lending at all.
   */
  predicate MayAssociate(l: Lending, borrower: UserId) {
    l.borrowerId.None? || l.borrowerId.value == borrower
  }

  /** The lendings of `ids` (in that order) that `owner` lent. */
  function LentBy(ids: seq<LendingId>, m: Lendings, owner: UserId): seq<Lending> {
    if ids == [] then []
    else
      var last := ids[|ids| - 1];
      LentBy(ids[..|ids| - 1], m, owner)
      + (if last in m && m[last].ownerId == owner then [m[last]] else [])
  }

  /** The lendings of `ids` (in that order) that `user` borrowed. */
  function BorrowedBy(ids: seq<LendingId>, m: Lendings, user: UserId): seq<Lending> {
    if ids == [] then []
    else
      var last := ids[|ids| - 1];
      BorrowedBy(ids[..|ids| - 1], m, user)
      + (if last in m && m[last].borrowerId == Some(user) then [m[last]] else [])
  }

  lemma {:induction false} LentByExactly(ids: seq<LendingId>, m: Lendings, owner: UserId)
    requires forall k :: k in m ==> k in ids
    requires forall i :: 0 <= i < |ids| ==> ids[i] in m
    ensures forall l :: l in LentBy(ids, m, owner) <==> l in m.Values && l.ownerId == owner
  {
    LentByWithin(ids, m, owner);
    forall l | l in m.Values && l.ownerId == owner
      ensures l in LentBy(ids, m, owner)
    {
      var k :| k in m && m[k] == l;
      var i :| 0 <= i < |ids| && ids[i] == k;
      LentByIncludes(ids, m, owner, i);
    }
  }

  lemma {:induction false} LentByWithin(ids: seq<LendingId>, m: Lendings, owner: UserId)
    ensures forall l :: l in LentBy(ids, m, owner) ==> l in m.Values && l.ownerId == owner
  {
    if ids != [] {
      LentByWithin(ids[..|ids| - 1], m, owner);
    }
  }

  lemma {:induction false} LentByIncludes(ids: seq<LendingId>, m: Lendings, owner: UserId, i: nat)
    requires i < |ids| && ids[i] in m && m[ids[i]].ownerId == owner
    ensures m[ids[i]] in LentBy(ids, m, owner)
  {
    if i < |ids| - 1 {
      LentByIncludes(ids[..|ids| - 1], m, owner, i);
    }
  }

  lemma {:induction false} BorrowedByExactly(ids: seq<LendingId>, m: Lendings, user: UserId)
    requires forall k :: k in m ==> k in ids
    requires forall i :: 0 <= i < |ids| ==> ids[i] in m
    ensures forall l :: l in BorrowedBy(ids, m, user) <==> l in m.Values && l.borrowerId == Some(user)
  {
    BorrowedByWithin(ids, m, user);
    forall l | l in m.Values && l.borrowerId == Some(user)
      ensures l in BorrowedBy(ids, m, user)
    {
      var k :| k in m && m[k] == l;
      var i :| 0 <= i < |ids| && ids[i] == k;
      BorrowedByIncludes(ids, m, user, i);
    }
  }

  lemma {:induction false} BorrowedByWithin(ids: seq<LendingId>, m: Lendings, user: UserId)
    ensures forall l :: l in BorrowedBy(ids, m, user) ==> l in m.Values && l.borrowerId == Some(user)
  {
    if ids != [] {
      BorrowedByWithin(ids[..|ids| - 1], m, user);
    }
  }

  lemma {:induction false} BorrowedByIncludes(ids: seq<LendingId>, m: Lendings, user: UserId, i: nat)
    requires i < |ids| && ids[i] in m && m[ids[i]].borrowerId == Some(user)
    ensures m[ids[i]] in BorrowedBy(ids, m, user)
  {
    if i < |ids| - 1 {
      BorrowedByIncludes(ids[..|ids| - 1], m, user, i);
    }
  }

  class LendingStore {
    var lendings: Lendings
    /** Every id, in creation order. */
    var order: seq<LendingId>
    /**
     * Users the directory has met: owners who registered a lending and
     * borrowers who were bound to one. A borrower outside this set is new.
     */
    var users: set<UserId>
    const log: EventLog

    ghost predicate Valid()
      reads this
    {
      && (forall k :: k in lendings ==> lendings[k].id == k && k in order)
      && (forall i :: 0 <= i < |order| ==> order[i] in lendings)
    }

    constructor (log: EventLog)
      ensures Valid() && this.log == log
      ensures lendings == map[] && order == [] && users == {}
    {
      this.log := log;
      lendings, order, users := map[], [], {};
    }

    method FetchLending(id: LendingId) returns (r: Result<Lending, Error>)
      ensures id in lendings ==> r == Success(lendings[id])
      ensures id !in lendings ==> r == Failure(NotFound)
    {
      if id in lendings {
        r := Success(lendings[id]);
      } else {
        r := Failure(NotFound);
      }
    }

    method IsValidOwner(id: LendingId, userId: UserId) returns (valid: bool)
      ensures valid <==> id in lendings && lendings[id].ownerId == userId
    {
      valid := id in lendings && lendings[id].ownerId == userId;
    }

    method FetchLentList(ownerId: UserId) returns (list: seq<Lending>)
      requires Valid()
      ensures forall l :: l in list <==> l in lendings.Values && l.ownerId == ownerId
    {
      list := LentBy(order, lendings, ownerId);
      LentByExactly(order, lendings, ownerId);
    }

    method FetchBorrowedList(userId: UserId) returns (list: seq<Lending>)
      requires Valid()
      ensures forall l :: l in list <==> l in lendings.Values && l.borrowerId == Some(userId)
    {
      list := BorrowedBy(order, lendings, userId);
      BorrowedByExactly(order, lendings, userId);
    }

    /** The repository assigns the new id; here it is given as `newId`. */
    method AddLending(owner: User, content: string, deadline: Time, newId: LendingId)
      returns (id: LendingId)
      requires Valid() && newId !in lendings
      modifies this, log
      ensures Valid() && id == newId
      ensures lendings == old(lendings)[id := NewLending(id, owner, content, deadline)]
      ensures order == old(order) + [id] && users == old(users) + {owner.id}
      ensures log.events == old(log.events) + [Called(Call.AddLending(id))]
    {
      id := newId;
      lendings := lendings[id := NewLending(id, owner, content, deadline)];
      order := order + [id];
      users := users + {owner.id};
      log.events := log.events + [Called(Call.AddLending(id))];
    }

    method RegisterSentUrl(id: LendingId)
      requires Valid()
      modifies this, log
      ensures Valid() && lendings == MarkSentUrl(old(lendings), id)
      ensures order == old(order) && users == old(users)
      ensures log.events == old(log.events) + [Called(Call.RegisterSentUrl(id))]
    {
      lendings := MarkSentUrl(lendings, id);
      log.events := log.events + [Called(Call.RegisterSentUrl(id))];
    }

    /**
     * Binds `borrower` to the lending unless another user already holds it,
     * and reports whether the directory had not seen `borrower` before.
     */
    method AssociateBorrower(id: LendingId, borrower: User) returns (r: Result<(Lending, bool), Error>)
      requires Valid()
      modifies this, log
      ensures Valid() && order == old(order)
      ensures log.events == old(log.events) + [Called(Call.AssociateBorrower(id, borrower.id))]
      ensures id !in old(lendings) ==> r == Failure(NotFound)
      ensures id in old(lendings) && !MayAssociate(old(lendings)[id], borrower.id) ==>
        r == Failure(BorrowerAlreadyExists)
      ensures r.Failure? ==> lendings == old(lendings) && users == old(users)
      ensures id in old(lendings) && MayAssociate(old(lendings)[id], borrower.id) ==>
        && lendings == old(lendings)[id := Bind(old(lendings)[id], borrower)]
        && users == old(users) + {borrower.id}
        && r == Success((lendings[id], borrower.id !in old(users)))
    {
      log.events := log.events + [Called(Call.AssociateBorrower(id, borrower.id))];
      if id !in lendings {
        r := Failure(NotFound);
      } else if !MayAssociate(lendings[id], borrower.id) {
        r := Failure(BorrowerAlreadyExists);
      } else {
        var isNewUser := borrower.id !in users;
        lendings := lendings[id := Bind(lendings[id], borrower)];
        users := users + {borrower.id};
        r := Success((lendings[id], isNewUser));
      }
    }

    method StartConfirmingReturned(id: LendingId)
      requires Valid()
      modifies this, log
      ensures Valid() && lendings == StartConfirming(old(lendings), id)
      ensures order == old(order) && users == old(users)
      ensures log.events == old(log.events) + [Called(Call.StartConfirmingReturned(id))]
    {
      lendings := StartConfirming(lendings, id);
      log.events := log.events + [Called(Call.StartConfirmingReturned(id))];
    }

    method FinishConfirmingReturned(id: LendingId)
      requires Valid()
      modifies this, log
      ensures Valid() && lendings == FinishConfirming(old(lendings), id)
      ensures order == old(order) && users == old(users)
      ensures log.events == old(log.events) + [Called(Call.FinishConfirmingReturned(id))]
    {
      lendings := FinishConfirming(lendings, id);
      log.events := log.events + [Called(Call.FinishConfirmingReturned(id))];
    }

    /** Records the return at `now` (the clock is a parameter) and yields the updated lending. */
    method RegisterReturnLending(id: LendingId, now: Time) returns (r: Result<Lending, Error>)
      requires Valid()
      modifies this, log
      ensures Valid() && lendings == RegisterReturn(old(lendings), id, now)
      ensures order == old(order) && users == old(users)
      ensures log.events == old(log.events) + [Called(Call.RegisterReturnLending(id))]
      ensures r == if id in old(lendings) then Success(lendings[id]) else Failure(NotFound)
    {
      lendings := RegisterReturn(lendings, id, now);
      log.events := log.events + [Called(Call.RegisterReturnLending(id))];
      r := if id in lendings then Success(lendings[id]) else Failure(NotFound);
    }
  }
}
