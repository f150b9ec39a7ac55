/**
 * What the core does to the outside world, in the order it does it: calls
 * into the lending use-case layer and messages handed to the chat gateway.
 * The store and the gateway append to one shared log, so the interleaving
 * of sends and state changes is observable.
 */
module Events {
  import opened Wrappers

  type UserId = string
  type LendingId = string
  type ReplyToken = string

  /**
   * A reminder card (a Flex message): its alt text and the texts of its two
   * action buttons. The chat SDK turns the card's contents into objects of
   * its own when the message is built, so a card keeps the texts it had
   * then, whatever happens to the contents afterwards.
   */
  datatype Card = Card(altText: string, yesText: string, noText: string)

  datatype Message =
    | Reply(token: ReplyToken, texts: seq<string>)
    /** The recipient is whatever the caller passed, possibly no one. */
    | Push(to: Option<UserId>, texts: seq<string>)
    | PushCards(owner: UserId, cards: seq<Card>)

  /** Use-case calls that change the lending store. */
  datatype Call =
    | AddLending(id: LendingId)
    | RegisterSentUrl(id: LendingId)
    | AssociateBorrower(id: LendingId, borrower: UserId)
    | StartConfirmingReturned(id: LendingId)
    | FinishConfirmingReturned(id: LendingId)
    | RegisterReturnLending(id: LendingId)

  datatype Event = Called(call: Call) | Sent(message: Message)

  class EventLog {
    var events: seq<Event>

    constructor ()
      ensures events == []
    {
      events := [];
    }
  }

  /** The store calls of a log, in order. */
  function CallsOf(events: seq<Event>): seq<Call>
  {
    if events == [] then []
    else CallsOf(events[..|events| - 1])
         + (if events[|events| - 1].Called? then [events[|events| - 1].call] else [])
  }

  /** The messages of a log, in order. */
  function MessagesOf(events: seq<Event>): seq<Message>
  {
    if events == [] then []
    else MessagesOf(events[..|events| - 1])
         + (if events[|events| - 1].Sent? then [events[|events| - 1].message] else [])
  }

  lemma {:induction false} CallsOfAppend(a: seq<Event>, b: seq<Event>)
    ensures CallsOf(a + b) == CallsOf(a) + CallsOf(b)
  {
    if b == [] {
      assert a + b == a;
    } else {
      assert (a + b)[..|a + b| - 1] == a + b[..|b| - 1];
      CallsOfAppend(a, b[..|b| - 1]);
    }
  }

  lemma {:induction false} MessagesOfAppend(a: seq<Event>, b: seq<Event>)
    ensures MessagesOf(a + b) == MessagesOf(a) + MessagesOf(b)
  {
    if b == [] {
      assert a + b == a;
    } else {
      assert (a + b)[..|a + b| - 1] == a + b[..|b| - 1];
      MessagesOfAppend(a, b[..|b| - 1]);
    }
  }
}
