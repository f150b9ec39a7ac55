/**
 * The chat gateway (`line_bot_api`) reduced to what it records, and the
 * part of the reminder card's contents the sweep mutates.
 */
module Line {
  import opened Wrappers
  import opened Events

  /**
   * The footer of the loaded card template: the texts its two action
   * buttons send back. A shallow copy of the template shares this one
   * object, so appending to its texts is seen by every later copy.
   */
  class Footer {
    var yesText: string
    var noText: string

    constructor (yesText: string, noText: string)
      ensures this.yesText == yesText && this.noText == noText
    {
      this.yesText := yesText;
      this.noText := noText;
    }
  }

  class Gateway {
    const log: EventLog

    constructor (log: EventLog)
      ensures this.log == log
    {
      this.log := log;
    }

    method ReplyMessage(token: ReplyToken, texts: seq<string>)
      modifies log
      ensures log.events == old(log.events) + [Sent(Reply(token, texts))]
    {
      log.events := log.events + [Sent(Reply(token, texts))];
    }

    method PushMessage(to: Option<UserId>, texts: seq<string>)
      modifies log
      ensures log.events == old(log.events) + [Sent(Push(to, texts))]
    {
      log.events := log.events + [Sent(Push(to, texts))];
    }

    /** Pushes a list of Flex messages, each as it was when it was built. */
    method PushFlex(owner: UserId, cards: seq<Card>)
      modifies log
      ensures log.events == old(log.events) + [Sent(PushCards(owner, cards))]
    {
      log.events := log.events + [Sent(PushCards(owner, cards))];
    }
  }
}
