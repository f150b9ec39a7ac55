/**
 * The reply interpreter of the chat bot, as a specification: which branch an
 * inbound text takes against the store, what each branch does to the store,
 * and what it logs. `Bot.BotService.HandleMessage` is proved against it.
 */
module Reply {
  import opened Wrappers
  import opened Events
  import opened Store
  import opened Tokens

  /** The two recognised keywords. */
  const Yes := "はい"
  const No := "いいえ"

  /** The fixed answers. */
  const ThanksOwner := "返ってきてよかったチュン！"
  const ThanksBorrower := "返してくれてありがとチュン！"
  const Sad := "悲しいチュン..."
  const WillNudge := "早く返してって言ってくるチュン！"
  const Nudge := "早く返して欲しいチュン!\n（もし既に返してたら申し訳ないチュン...\n借りた側に通知解除してって言って欲しいチュン...)"
  const AskYesNo := "「はい」か「いいえ」で答えて欲しいチュン。"

  /** The branch an inbound text takes. */
  datatype Branch =
    | Chatter              // not exactly two tokens
    | Unknown(id: LendingId)  // the fetch raises NotFound, which propagates
    | Idle(id: LendingId)     // the lending is not awaiting confirmation
    | Affirm(id: LendingId)   // confirming, keyword `はい`
    | Deny(id: LendingId)     // confirming, keyword `いいえ`
    | Unclear(id: LendingId)  // confirming, any other keyword

  function Classify(text: string, m: Lendings): Branch {
    var tokens := Split(text);
    if |tokens| != 2 then Chatter
    else
      var keyword, id := tokens[0], tokens[1];
      if id !in m then Unknown(id)
      else if !m[id].isConfirmingReturned then Idle(id)
      else if keyword == Yes then Affirm(id)
      else if keyword == No then Deny(id)
      else Unclear(id)
  }

  /** The branches answered with a filler drawn from the pool. */
  predicate IsFiller(b: Branch) {
    b.Chatter? || b.Idle?
  }

  /** The store once the branch's use-case calls have run. */
  function Outcome(b: Branch, m: Lendings, now: Time): Lendings {
    match b
    case Affirm(id) => FinishConfirming(RegisterReturn(m, id, now), id)
    case Deny(id) => FinishConfirming(m, id)
    case _ => m
  }

  function BorrowerOf(m: Lendings, id: LendingId): Option<UserId> {
    if id in m then m[id].borrowerId else None
  }

  /** What a branch with a fixed answer logs, in order. */
  function Script(b: Branch, token: ReplyToken, m: Lendings): seq<Event> {
    match b
    case Affirm(id) =>
      [Sent(Reply(token, [ThanksOwner])), Sent(Push(BorrowerOf(m, id), [ThanksBorrower])),
       Called(RegisterReturnLending(id)), Called(FinishConfirmingReturned(id))]
    case Deny(id) =>
      [Sent(Reply(token, [Sad, WillNudge])), Sent(Push(BorrowerOf(m, id), [Nudge])),
       Called(FinishConfirmingReturned(id))]
    case Unclear(_) => [Sent(Reply(token, [AskYesNo]))]
    case _ => []
  }

  /** One reply to `token` whose single text is drawn from the pool. */
  predicate IsFillerReply(e: Event, token: ReplyToken, pool: seq<string>) {
    e.Sent? && e.message.Reply? && e.message.token == token
    && |e.message.texts| == 1 && e.message.texts[0] in pool
  }

  /** The log grew by exactly what branch `b` sends and calls. */
  predicate Answered(b: Branch, token: ReplyToken, m: Lendings, pool: seq<string>,
                     before: seq<Event>, after: seq<Event>)
  {
    if IsFiller(b) then
      |after| == |before| + 1 && after[..|before|] == before && IsFillerReply(after[|before|], token, pool)
    else
      after == before + Script(b, token, m)
  }

  /** A confirming lending is always bound to a borrower. */
  ghost predicate Consistent(m: Lendings) {
    forall k :: k in m && m[k].isConfirmingReturned ==> m[k].borrowerId.Some?
  }

  /** Only a confirming lending is ever changed, and only by its two keywords. */
  lemma OutcomeNeedsConfirming(text: string, m: Lendings, now: Time)
    ensures var b := Classify(text, m);
      Outcome(b, m, now) != m ==> (b.Affirm? || b.Deny?) && b.id in m && m[b.id].isConfirmingReturned
  {
  }

  /**
   * The handler never touches who lent what to whom: only the confirmation
   * flag and the return time of the named lending can change, the flag ends
   * up cleared, and the return time moves only on `はい`.
   */
  lemma OutcomeFrame(text: string, m: Lendings, now: Time)
    ensures var b := Classify(text, m); var m' := Outcome(b, m, now);
      && m'.Keys == m.Keys
      && (forall k :: k in m ==>
            m'[k].(isConfirmingReturned := m[k].isConfirmingReturned, returnedAt := m[k].returnedAt) == m[k])
      && (forall k :: k in m && m'[k] != m[k] ==> (b.Affirm? || b.Deny?) && b.id == k && !m'[k].isConfirmingReturned)
      && (forall k :: k in m && m'[k].returnedAt != m[k].returnedAt ==> b == Affirm(k) && m'[k].returnedAt == Some(now))
      && (Consistent(m) ==> Consistent(m'))
  {
  }

  /**
   * Replaying the same text after it has been handled changes nothing and
   * calls nothing: a replayed `はい <id>` or `いいえ <id>` finds the flag cleared
   * and takes the filler branch, so the return is registered only once.
   */
  lemma ReplayIsInert(text: string, m: Lendings, now: Time, later: Time, token: ReplyToken)
    ensures var b := Classify(text, m); var m' := Outcome(b, m, now); var b' := Classify(text, m');
      && Outcome(b', m', later) == m'
      && CallsOf(Script(b', token, m')) == []
      && ((b.Affirm? || b.Deny?) ==> b' == Idle(b.id))
  {
    var b := Classify(text, m);
    var m' := Outcome(b, m, now);
    var b' := Classify(text, m');
    if b.Affirm? || b.Deny? {
      assert m'[b.id].isConfirmingReturned == false;
      assert b' == Idle(b.id);
    } else {
      assert m' == m;
    }
    match b'
    case Unclear(id) =>
      assert Script(b', token, m') == [Sent(Reply(token, [AskYesNo]))];
      assert CallsOf(Script(b', token, m')) == CallsOf([]) + [];
    case _ =>
  }

  /**
   * The text a card's button sends back — a keyword, one space, a lending
   * id — is read as that keyword and that id.
   */
  lemma ButtonText(keyword: string, id: LendingId, m: Lendings)
    requires IsWord(keyword) && IsWord(id)
    ensures id !in m ==> Classify(keyword + " " + id, m) == Unknown(id)
    ensures id in m && !m[id].isConfirmingReturned ==> Classify(keyword + " " + id, m) == Idle(id)
    ensures id in m && m[id].isConfirmingReturned ==>
      Classify(keyword + " " + id, m) == (if keyword == Yes then Affirm(id)
                                          else if keyword == No then Deny(id)
                                          else Unclear(id))
  {
    SplitLabelledId(keyword, id);
  }
}
