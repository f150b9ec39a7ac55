/**
 * The chat bot service: the handler for inbound text messages and the
 * reminder sweep, over the lending store and the chat gateway.
 */
module Bot {
  import opened Wrappers
  import opened Events
  import opened Store
  import opened Tokens
  import opened Line
  import opened Reply
  import opened Sweep

  class BotService {
    /** `lending_use_case` */
    const store: LendingStore
    /** `line_bot_api` */
    const gateway: Gateway
    /** The pool `random_messages` fillers are drawn from. */
    const randomMessages: seq<string>

    ghost predicate Valid()
      reads this, store
    {
      store.log == gateway.log && |randomMessages| > 0 && store.Valid()
    }

    constructor (store: LendingStore, gateway: Gateway, randomMessages: seq<string>)
      requires store.log == gateway.log && |randomMessages| > 0 && store.Valid()
      ensures Valid()
      ensures this.store == store && this.gateway == gateway && this.randomMessages == randomMessages
    {
      this.store := store;
      this.gateway := gateway;
      this.randomMessages := randomMessages;
    }

    /** `_response_random`: one reply holding some filler of the pool. */
    method ResponseRandom(token: ReplyToken)
      requires Valid()
      modifies store.log
      ensures Valid()
      ensures |store.log.events| == |old(store.log.events)| + 1
      ensures store.log.events[..|old(store.log.events)|] == old(store.log.events)
      ensures IsFillerReply(store.log.events[|old(store.log.events)|], token, randomMessages)
    {
      assert randomMessages[0] in randomMessages;
      var filler :| filler in randomMessages;
      gateway.ReplyMessage(token, [filler]);
    }

    /**
     * `handle_message`. The text takes the branch `Classify` names; the store
     * ends as `Outcome` says and the log grows by what the branch sends and
     * calls. A lending id the store does not know raises NotFound, which
     * propagates: nothing is sent and nothing changes. `now` is the clock
     * the use case reads when it records a return.
     */
    method HandleMessage(text: string, token: ReplyToken, now: Time) returns (raised: Option<Error>)
      requires Valid()
      modifies store, store.log
      ensures Valid()
      ensures store.order == old(store.order) && store.users == old(store.users)
      ensures var b := Classify(text, old(store.lendings));
        && store.lendings == Outcome(b, old(store.lendings), now)
        && Answered(b, token, old(store.lendings), randomMessages, old(store.log.events), store.log.events)
        && raised == (if b.Unknown? then Some(NotFound) else None)
    {
      var tokens := Split(text);
      if |tokens| != 2 {
        ResponseRandom(token);
        return None;
      }
      var keyword, id := tokens[0], tokens[1];
      var fetched := store.FetchLending(id);
      if fetched.Failure? {
        return Some(fetched.error);
      }
      var lending := fetched.value;
      if !lending.isConfirmingReturned {
        ResponseRandom(token);
        return None;
      }
      AnswerConfirming(keyword, id, token, now);
      raised := None;
    }

    /**
     * The branches of `handle_message` for a lending awaiting confirmation:
     * `はい` records the return, `いいえ` nudges the borrower, any other
     * keyword asks again.
     */
    method AnswerConfirming(keyword: string, id: LendingId, token: ReplyToken, now: Time)
      requires Valid() && id in store.lendings && store.lendings[id].isConfirmingReturned
      modifies store, store.log
      ensures Valid()
      ensures store.order == old(store.order) && store.users == old(store.users)
      ensures var b := if keyword == Yes then Affirm(id) else if keyword == No then Deny(id) else Unclear(id);
        && store.lendings == Outcome(b, old(store.lendings), now)
        && store.log.events == old(store.log.events) + Script(b, token, old(store.lendings))
    {
      if keyword == Yes {
        AcceptReturn(id, token, now);
      } else if keyword == No {
        DeclineReturn(id, token);
      } else {
        gateway.ReplyMessage(token, [AskYesNo]);
      }
    }

    /** `はい`: thank both sides, record the return, stop confirming. */
    method AcceptReturn(id: LendingId, token: ReplyToken, now: Time)
      requires Valid() && id in store.lendings
      modifies store, store.log
      ensures Valid()
      ensures store.order == old(store.order) && store.users == old(store.users)
      ensures store.lendings == FinishConfirming(RegisterReturn(old(store.lendings), id, now), id)
      ensures store.log.events == old(store.log.events) + Script(Affirm(id), token, old(store.lendings))
    {
      var borrower := store.lendings[id].borrowerId;
      gateway.ReplyMessage(token, [ThanksOwner]);
      gateway.PushMessage(borrower, [ThanksBorrower]);
      var _ := store.RegisterReturnLending(id, now);
      store.FinishConfirmingReturned(id);
    }

    /** `いいえ`: console the owner, nudge the borrower, stop confirming. */
    method DeclineReturn(id: LendingId, token: ReplyToken)
      requires Valid() && id in store.lendings
      modifies store, store.log
      ensures Valid()
      ensures store.order == old(store.order) && store.users == old(store.users)
      ensures store.lendings == FinishConfirming(old(store.lendings), id)
      ensures store.log.events == old(store.log.events) + Script(Deny(id), token, old(store.lendings))
    {
      var borrower := store.lendings[id].borrowerId;
      gateway.ReplyMessage(token, [Sad, WillNudge]);
      gateway.PushMessage(borrower, [Nudge]);
      store.FinishConfirmingReturned(id);
    }

    /**
     * `send_message_for_deadline_lendings`, as written. `due` is what the use
     * case's deadline query returns; `yesCaption` and `noCaption` are the two
     * action texts of the loaded card template. Every card's contents are a
     * shallow copy of the template, so the loop appends each id to the one
     * footer they all share, and each card is built from that footer's texts
     * as they stand right after its own id was appended.
     */
    method SendMessageForDeadlineLendings(due: Due, yesCaption: string, noCaption: string)
      requires Valid()
      modifies store, store.log
      ensures Valid()
      ensures store.order == old(store.order) && store.users == old(store.users)
      ensures store.lendings == MarkAll(old(store.lendings), AllIds(due))
      ensures store.log.events == old(store.log.events) + SweepEvents(due, yesCaption, noCaption, true)
    {
      var footer := new Footer(yesCaption, noCaption);
      for k := 0 to |due|
        invariant Valid()
        invariant store.order == old(store.order) && store.users == old(store.users)
        invariant store.lendings == MarkAll(old(store.lendings), AllIds(due[..k]))
        invariant store.log.events == old(store.log.events) + SweepEvents(due[..k], yesCaption, noCaption, true)
        invariant footer.yesText == yesCaption + IdSuffix(AllIds(due[..k]))
        invariant footer.noText == noCaption + IdSuffix(AllIds(due[..k]))
      {
        ghost var before := store.log.events;
        RemindSharingFooter(due[k].0, due[k].1, footer);
        SharedFooterStep(due, k, yesCaption, footer.yesText);
        SharedFooterStep(due, k, noCaption, footer.noText);
        SharedSweepStep(due, k, old(store.lendings), yesCaption, noCaption, old(store.log.events),
                        before, store.log.events, store.lendings);
      }
      assert due[..|due|] == due;
    }

    /**
     * One owner's turn of the sweep as written: start confirming each of the
     * owner's lendings, extending the shared footer with its id and building
     * its card, then push the owner the cards.
     */
    method RemindSharingFooter(ownerId: UserId, lendings: seq<Lending>, footer: Footer)
      requires Valid()
      modifies store, store.log, footer
      ensures Valid()
      ensures store.order == old(store.order) && store.users == old(store.users)
      ensures store.lendings == MarkAll(old(store.lendings), IdsOf(lendings))
      ensures footer.yesText == old(footer.yesText) + IdSuffix(IdsOf(lendings))
      ensures footer.noText == old(footer.noText) + IdSuffix(IdsOf(lendings))
      ensures store.log.events == old(store.log.events) + StartEvents(IdsOf(lendings))
        + [Sent(PushCards(ownerId, SharedCards(lendings, old(footer.yesText), old(footer.noText))))]
    {
      var messages := ConfirmSharingFooter(lendings, footer);
      gateway.PushFlex(ownerId, messages);
    }

    /**
     * The inner loop of the sweep as written: one owner's lendings. The j-th
     * card shows the footer's texts after the first j + 1 ids were appended.
     */
    method ConfirmSharingFooter(lendings: seq<Lending>, footer: Footer) returns (messages: seq<Card>)
      requires Valid()
      modifies store, store.log, footer
      ensures Valid()
      ensures store.order == old(store.order) && store.users == old(store.users)
      ensures store.lendings == MarkAll(old(store.lendings), IdsOf(lendings))
      ensures store.log.events == old(store.log.events) + StartEvents(IdsOf(lendings))
      ensures footer.yesText == old(footer.yesText) + IdSuffix(IdsOf(lendings))
      ensures footer.noText == old(footer.noText) + IdSuffix(IdsOf(lendings))
      ensures messages == SharedCards(lendings, old(footer.yesText), old(footer.noText))
    {
      messages := [];
      for j := 0 to |lendings|
        invariant Valid()
        invariant store.order == old(store.order) && store.users == old(store.users)
        invariant store.lendings == MarkAll(old(store.lendings), IdsOf(lendings[..j]))
        invariant store.log.events == old(store.log.events) + StartEvents(IdsOf(lendings[..j]))
        invariant footer.yesText == old(footer.yesText) + IdSuffix(IdsOf(lendings[..j]))
        invariant footer.noText == old(footer.noText) + IdSuffix(IdsOf(lendings[..j]))
        invariant messages == SharedCards(lendings[..j], old(footer.yesText), old(footer.noText))
      {
        SweepStep(lendings, j, old(store.lendings));
        SharedCardsStep(lendings, j, old(footer.yesText), old(footer.noText));
        SuffixAssoc(old(footer.yesText), IdSuffix(IdsOf(lendings[..j])), lendings[j].id);
        SuffixAssoc(old(footer.noText), IdSuffix(IdsOf(lendings[..j])), lendings[j].id);
        var card := ConfirmSharingOne(lendings[j], footer);
        messages := messages + [card];
      }
      assert lendings[..|lendings|] == lendings;
    }

    /**
     * One lending of the inner loop as written: start confirming it, append
     * its id to the shared footer, and build its card from the footer as it
     * now stands.
     */
    method ConfirmSharingOne(l: Lending, footer: Footer) returns (card: Card)
      requires Valid()
      modifies store, store.log, footer
      ensures Valid()
      ensures store.order == old(store.order) && store.users == old(store.users)
      ensures store.lendings == StartConfirming(old(store.lendings), l.id)
      ensures store.log.events == old(store.log.events) + [Called(StartConfirmingReturned(l.id))]
      ensures footer.yesText == old(footer.yesText) + " " + l.id
      ensures footer.noText == old(footer.noText) + " " + l.id
      ensures card == Card(AltText(l), footer.yesText, footer.noText)
    {
      store.StartConfirmingReturned(l.id);
      footer.yesText := footer.yesText + " " + l.id;
      footer.noText := footer.noText + " " + l.id;
      card := Card(AltText(l), footer.yesText, footer.noText);
    }

    /**
     * The sweep as evidently intended: each card's contents are a deep copy
     * of the template, so its footer is its own and ends in its own id.
     */
    method SendMessageForDeadlineLendingsOwnFooters(due: Due, yesCaption: string, noCaption: string)
      requires Valid()
      modifies store, store.log
      ensures Valid()
      ensures store.order == old(store.order) && store.users == old(store.users)
      ensures store.lendings == MarkAll(old(store.lendings), AllIds(due))
      ensures store.log.events == old(store.log.events) + SweepEvents(due, yesCaption, noCaption, false)
    {
      for k := 0 to |due|
        invariant Valid()
        invariant store.order == old(store.order) && store.users == old(store.users)
        invariant store.lendings == MarkAll(old(store.lendings), AllIds(due[..k]))
        invariant store.log.events == old(store.log.events) + SweepEvents(due[..k], yesCaption, noCaption, false)
      {
        ghost var before := store.log.events;
        RemindWithOwnFooters(due[k].0, due[k].1, yesCaption, noCaption);
        OwnSweepStep(due, k, old(store.lendings), yesCaption, noCaption, old(store.log.events),
                     before, store.log.events, store.lendings);
      }
      assert due[..|due|] == due;
    }

    /** One owner's turn of the intended sweep: each card names its own lending. */
    method RemindWithOwnFooters(ownerId: UserId, lendings: seq<Lending>, yesCaption: string, noCaption: string)
      requires Valid()
      modifies store, store.log
      ensures Valid()
      ensures store.order == old(store.order) && store.users == old(store.users)
      ensures store.lendings == MarkAll(old(store.lendings), IdsOf(lendings))
      ensures store.log.events == old(store.log.events) + StartEvents(IdsOf(lendings))
                                  + [Sent(PushCards(ownerId, OwnCards(lendings, yesCaption, noCaption)))]
    {
      var messages := ConfirmWithOwnFooters(lendings, yesCaption, noCaption);
      gateway.PushFlex(ownerId, messages);
    }

    /** The inner loop of the intended sweep: one owner's lendings. */
    method ConfirmWithOwnFooters(lendings: seq<Lending>, yesCaption: string, noCaption: string)
      returns (messages: seq<Card>)
      requires Valid()
      modifies store, store.log
      ensures Valid()
      ensures store.order == old(store.order) && store.users == old(store.users)
      ensures store.lendings == MarkAll(old(store.lendings), IdsOf(lendings))
      ensures store.log.events == old(store.log.events) + StartEvents(IdsOf(lendings))
      ensures messages == OwnCards(lendings, yesCaption, noCaption)
    {
      messages := [];
      for j := 0 to |lendings|
        invariant Valid()
        invariant store.order == old(store.order) && store.users == old(store.users)
        invariant store.lendings == MarkAll(old(store.lendings), IdsOf(lendings[..j]))
        invariant store.log.events == old(store.log.events) + StartEvents(IdsOf(lendings[..j]))
        invariant messages == OwnCards(lendings[..j], yesCaption, noCaption)
      {
        SweepStep(lendings, j, old(store.lendings));
        OwnCardsStep(lendings, j, yesCaption, noCaption);
        store.StartConfirmingReturned(lendings[j].id);
        var footer := new Footer(yesCaption, noCaption);
        footer.yesText := footer.yesText + " " + lendings[j].id;
        footer.noText := footer.noText + " " + lendings[j].id;
        messages := messages + [Card(AltText(lendings[j]), footer.yesText, footer.noText)];
      }
      assert lendings[..|lendings|] == lendings;
    }
  }
}
