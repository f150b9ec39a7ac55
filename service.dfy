/**
 * The lending service behind the web API: one instance per request, acting
 * for the user its access token resolves to.
 */
module Service {
  import opened Wrappers
  import opened Events
  import opened Store

  /** What a successful borrower registration reports back. */
  datatype Registration = Registration(
    status: string,
    lendingId: LendingId,
    content: string,
    deadline: Time,
    ownerName: string,
    isNewUser: bool)

  const StatusSuccess := "success"

  /**
   * Once `borrower` is bound to a lending, the lending is visible to that
   * user and to nobody else, and binding that same user again changes
   * nothing.
   */
  lemma BoundLendingIsPrivate(l: Lending, borrower: User, other: UserId)
    requires MayAssociate(l, borrower.id)
    ensures MayAssociate(Bind(l, borrower), other) <==> other == borrower.id
    ensures MayAssociate(Bind(l, borrower), borrower.id)
    ensures Bind(Bind(l, borrower), borrower) == Bind(l, borrower)
  {
  }

  class LendingService {
    /** The profile `get_user_profile` resolves the request's token to. */
    const caller: User
    /** `LendingUseCase` */
    const useCase: LendingStore

    constructor (caller: User, useCase: LendingStore)
      ensures this.caller == caller && this.useCase == useCase
    {
      this.caller := caller;
      this.useCase := useCase;
    }

    /**
     * `register_lending`: the caller lends `content` until `deadline`. The
     * pair returned is the new id and the deadline itself.
     */
    method RegisterLending(content: string, deadline: Time, newId: LendingId)
      returns (id: LendingId, due: Time)
      requires useCase.Valid() && newId !in useCase.lendings
      modifies useCase, useCase.log
      ensures useCase.Valid()
      ensures id == newId && due == deadline
      ensures useCase.lendings == old(useCase.lendings)[id := NewLending(id, caller, content, deadline)]
      ensures useCase.lendings[id].ownerId == caller.id && useCase.lendings[id].borrowerId.None?
      ensures useCase.order == old(useCase.order) + [id] && useCase.users == old(useCase.users) + {caller.id}
      ensures useCase.log.events == old(useCase.log.events) + [Called(Call.AddLending(id))]
    {
      id := useCase.AddLending(caller, content, deadline, newId);
      due := deadline;
    }

    /** `register_sent_url` */
    method RegisterSentUrl(id: LendingId)
      requires useCase.Valid()
      modifies useCase, useCase.log
      ensures useCase.Valid()
      ensures useCase.lendings == MarkSentUrl(old(useCase.lendings), id)
      ensures useCase.order == old(useCase.order) && useCase.users == old(useCase.users)
      ensures useCase.log.events == old(useCase.log.events) + [Called(Call.RegisterSentUrl(id))]
    {
      useCase.RegisterSentUrl(id);
    }

    /**
     * `fetch_lending`: the lending, unless a borrower other than the caller
     * is already bound to it. An unknown id raises NotFound from the use
     * case. Nothing changes.
     */
    method FetchLending(id: LendingId) returns (r: Result<Lending, Error>)
      ensures id !in useCase.lendings ==> r == Failure(NotFound)
      ensures id in useCase.lendings ==>
        var l := useCase.lendings[id];
        r == if MayAssociate(l, caller.id) then Success(l) else Failure(BorrowerAlreadyExists)
      ensures r.Success? ==> r.value.borrowerId.None? || r.value.borrowerId == Some(caller.id)
    {
      r := useCase.FetchLending(id);
      if r.Failure? {
        return;
      }
      var lending := r.value;
      if lending.borrowerId.Some? && caller.id != lending.borrowerId.value {
        r := Failure(BorrowerAlreadyExists);
      }
    }

    /**
     * `register_borrower`: binds the caller as the lending's borrower and
     * reports the lending and whether the caller is new to the service.
     */
    method RegisterBorrower(id: LendingId) returns (r: Result<Registration, Error>)
      requires useCase.Valid()
      modifies useCase, useCase.log
      ensures useCase.Valid()
      ensures useCase.order == old(useCase.order)
      ensures useCase.log.events == old(useCase.log.events) + [Called(Call.AssociateBorrower(id, caller.id))]
      ensures id !in old(useCase.lendings) ==> r == Failure(NotFound)
      ensures id in old(useCase.lendings) && !MayAssociate(old(useCase.lendings)[id], caller.id) ==>
        r == Failure(BorrowerAlreadyExists)
      ensures r.Failure? ==> useCase.lendings == old(useCase.lendings) && useCase.users == old(useCase.users)
      ensures id in old(useCase.lendings) && MayAssociate(old(useCase.lendings)[id], caller.id) ==>
        var l := old(useCase.lendings)[id];
        && useCase.lendings == old(useCase.lendings)[id := Bind(l, caller)]
        && useCase.users == old(useCase.users) + {caller.id}
        && r == Success(Registration(StatusSuccess, l.id, l.content, l.deadline, l.ownerName,
                                     caller.id !in old(useCase.users)))
    {
      var associated := useCase.AssociateBorrower(id, caller);
      if associated.Failure? {
        return Failure(associated.error);
      }
      var (lending, isNewUser) := associated.value;
      r := Success(Registration(StatusSuccess, lending.id, lending.content, lending.deadline,
                                lending.ownerName, isNewUser));
    }

    /** `get_owner_lending`: exactly the lendings the caller lent. */
    method GetOwnerLending() returns (list: seq<Lending>)
      requires useCase.Valid()
      ensures forall l :: l in list <==> l in useCase.lendings.Values && l.ownerId == caller.id
    {
      list := useCase.FetchLentList(caller.id);
    }

    /** `get_borrower_lending`: exactly the lendings the caller borrowed. */
    method GetBorrowerLending() returns (list: seq<Lending>)
      requires useCase.Valid()
      ensures forall l :: l in list <==> l in useCase.lendings.Values && l.borrowerId == Some(caller.id)
    {
      list := useCase.FetchBorrowedList(caller.id);
    }

    /**
     * `register_lending_return`: only the lending's owner may report it
     * returned; anyone else gets InvalidOwner and nothing happens. `now` is
     * the clock the use case reads.
     */
    method RegisterLendingReturn(id: LendingId, now: Time) returns (r: Result<Lending, Error>)
      requires useCase.Valid()
      modifies useCase, useCase.log
      ensures useCase.Valid()
      ensures useCase.order == old(useCase.order) && useCase.users == old(useCase.users)
      ensures var owns := id in old(useCase.lendings) && old(useCase.lendings)[id].ownerId == caller.id;
        && (!owns ==> r == Failure(InvalidOwner) && useCase.lendings == old(useCase.lendings)
                      && useCase.log.events == old(useCase.log.events))
        && (owns ==> useCase.lendings == RegisterReturn(old(useCase.lendings), id, now)
                     && useCase.log.events == old(useCase.log.events) + [Called(Call.RegisterReturnLending(id))]
                     && r == Success(old(useCase.lendings)[id].(returnedAt := Some(now))))
    {
      var isValidOwner := useCase.IsValidOwner(id, caller.id);
      if !isValidOwner {
        return Failure(InvalidOwner);
      }
      r := useCase.RegisterReturnLending(id, now);
    }
  }
}
