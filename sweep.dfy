/**
 * The reminder sweep as a specification. The use case hands the bot the due
 * lendings grouped by owner (a dictionary, iterated in insertion order, here
 * a sequence of pairs); for every lending the sweep starts confirmation and
 * builds a card, and per owner it pushes one list of cards.
 *
 * The card contents are a shallow copy of one loaded template, so every
 * iteration appends its `" " + id` to the same footer object and the suffix
 * accumulates over the whole sweep. Each card takes the footer's texts as
 * they stand when it is built, right after its own id was appended.
 * `SweepEvents(due, y, n, true)` describes that behaviour; with `false` it
 * describes the evidently intended one, where each card carries its own id.
 */
module Sweep {
  import opened Wrappers
  import opened Events
  import opened Store
  import opened Tokens
  import Reply

  type Due = seq<(UserId, seq<Lending>)>

  function IdsOf(ls: seq<Lending>): (ids: seq<LendingId>)
    ensures |ids| == |ls| && forall i :: 0 <= i < |ls| ==> ids[i] == ls[i].id
  {
    seq(|ls|, i requires 0 <= i < |ls| => ls[i].id)
  }

  /** Every due lending id, owner after owner. */
  function AllIds(due: Due): seq<LendingId> {
    if due == [] then [] else AllIds(due[..|due| - 1]) + IdsOf(due[|due| - 1].1)
  }

  /** How an f-string renders an optional name. */
  function NameText(name: Option<string>): string {
    match name
    case Some(n) => n
    case None => "None"
  }

  /** The card's alt text. */
  function AltText(l: Lending): string {
    NameText(l.borrowerName) + "さんに貸した" + l.content + "帰ってきたチュン？"
  }

  function StartEvents(ids: seq<LendingId>): (es: seq<Event>)
    ensures |es| == |ids|
  {
    seq(|ids|, i requires 0 <= i < |ids| => Called(StartConfirmingReturned(ids[i])))
  }

  function Starts(ids: seq<LendingId>): (cs: seq<Call>)
    ensures |cs| == |ids|
  {
    seq(|ids|, i requires 0 <= i < |ids| => StartConfirmingReturned(ids[i]))
  }

  /**
   * The cards of one owner built from the shared footer, whose texts read
   * `yesText` and `noText` before the owner's turn: the j-th card shows them
   * followed by the ids of the owner's first j + 1 lendings.
   */
  function SharedCards(ls: seq<Lending>, yesText: string, noText: string): (cs: seq<Card>)
    ensures |cs| == |ls|
  {
    seq(|ls|, i requires 0 <= i < |ls| =>
      Card(AltText(ls[i]), yesText + IdSuffix(IdsOf(ls[..i + 1])), noText + IdSuffix(IdsOf(ls[..i + 1]))))
  }

  /** Cards whose action texts each end in their own lending's id. */
  function OwnCards(ls: seq<Lending>, yes: string, no: string): (cs: seq<Card>)
    ensures |cs| == |ls|
  {
    seq(|ls|, i requires 0 <= i < |ls| => Card(AltText(ls[i]), yes + " " + ls[i].id, no + " " + ls[i].id))
  }

  /** The cards pushed to the last owner of `due`. */
  function LastCards(due: Due, yes: string, no: string, shared: bool): (cs: seq<Card>)
    requires due != []
    ensures |cs| == |due[|due| - 1].1|
  {
    var ls := due[|due| - 1].1;
    var before := AllIds(due[..|due| - 1]);
    if shared then SharedCards(ls, yes + IdSuffix(before), no + IdSuffix(before))
    else OwnCards(ls, yes, no)
  }

  /** The card of the j-th lending of the i-th owner. */
  function CardAt(due: Due, yes: string, no: string, shared: bool, i: nat, j: nat): Card
    requires i < |due| && j < |due[i].1|
  {
    assert due[..i + 1][i] == due[i];
    LastCards(due[..i + 1], yes, no, shared)[j]
  }

  /** The ids the sweep has appended by the time it builds the j-th card of the i-th owner. */
  function IdsUpTo(due: Due, i: nat, j: nat): seq<LendingId>
    requires i < |due| && j < |due[i].1|
  {
    AllIds(due[..i]) + IdsOf(due[i].1[..j + 1])
  }

  /** Everything the sweep calls and sends, in order. */
  function SweepEvents(due: Due, yes: string, no: string, shared: bool): seq<Event> {
    if due == [] then []
    else
      var last := due[|due| - 1];
      SweepEvents(due[..|due| - 1], yes, no, shared)
      + StartEvents(IdsOf(last.1))
      + [Sent(PushCards(last.0, LastCards(due, yes, no, shared)))]
  }

  /** The store after confirmation has been started for each id in turn. */
  function MarkAll(m: Lendings, ids: seq<LendingId>): Lendings {
    if ids == [] then m else StartConfirming(MarkAll(m, ids[..|ids| - 1]), ids[|ids| - 1])
  }

  /** One more lending of an owner processed: every sweep quantity grows by that lending's step. */
  lemma SweepStep(ls: seq<Lending>, j: nat, m: Lendings)
    requires j < |ls|
    ensures IdsOf(ls[..j + 1]) == IdsOf(ls[..j]) + [ls[j].id]
    ensures MarkAll(m, IdsOf(ls[..j + 1])) == StartConfirming(MarkAll(m, IdsOf(ls[..j])), ls[j].id)
    ensures StartEvents(IdsOf(ls[..j + 1]))
         == StartEvents(IdsOf(ls[..j])) + [Called(StartConfirmingReturned(ls[j].id))]
    ensures IdSuffix(IdsOf(ls[..j + 1])) == IdSuffix(IdsOf(ls[..j])) + " " + ls[j].id
  {
    var ids := IdsOf(ls[..j + 1]);
    assert ids[..j] == IdsOf(ls[..j]);
  }

  /** One more lending of an owner processed: its card joins the owner's cards. */
  lemma SharedCardsStep(ls: seq<Lending>, j: nat, yesText: string, noText: string)
    requires j < |ls|
    ensures SharedCards(ls[..j + 1], yesText, noText)
         == SharedCards(ls[..j], yesText, noText)
            + [Card(AltText(ls[j]), yesText + IdSuffix(IdsOf(ls[..j + 1])), noText + IdSuffix(IdsOf(ls[..j + 1])))]
  {
    var longer := SharedCards(ls[..j + 1], yesText, noText);
    var shorter := SharedCards(ls[..j], yesText, noText);
    forall i | 0 <= i < j
      ensures longer[i] == shorter[i]
    {
      assert ls[..j + 1][..i + 1] == ls[..i + 1] == ls[..j][..i + 1];
    }
    assert ls[..j + 1][..j + 1] == ls[..j + 1];
    CardsSnoc(longer, shorter, longer[j]);
  }

  /** One more lending of an owner processed, each card naming its own lending. */
  lemma OwnCardsStep(ls: seq<Lending>, j: nat, yes: string, no: string)
    requires j < |ls|
    ensures OwnCards(ls[..j + 1], yes, no)
         == OwnCards(ls[..j], yes, no) + [Card(AltText(ls[j]), yes + " " + ls[j].id, no + " " + ls[j].id)]
  {
    var longer := OwnCards(ls[..j + 1], yes, no);
    CardsSnoc(longer, OwnCards(ls[..j], yes, no), longer[j]);
  }

  lemma CardsSnoc(longer: seq<Card>, shorter: seq<Card>, last: Card)
    requires |longer| == |shorter| + 1 && longer[|shorter|] == last
    requires forall i :: 0 <= i < |shorter| ==> longer[i] == shorter[i]
    ensures longer == shorter + [last]
  {
  }

  /** One more owner processed: every sweep quantity grows by that owner's step. */
  lemma SweepOwnerStep(due: Due, k: nat, m: Lendings, yes: string, no: string, shared: bool)
    requires k < |due|
    ensures AllIds(due[..k + 1]) == AllIds(due[..k]) + IdsOf(due[k].1)
    ensures MarkAll(MarkAll(m, AllIds(due[..k])), IdsOf(due[k].1)) == MarkAll(m, AllIds(due[..k + 1]))
    ensures IdSuffix(AllIds(due[..k])) + IdSuffix(IdsOf(due[k].1)) == IdSuffix(AllIds(due[..k + 1]))
    ensures SweepEvents(due[..k + 1], yes, no, shared)
         == SweepEvents(due[..k], yes, no, shared) + StartEvents(IdsOf(due[k].1))
            + [Sent(PushCards(due[k].0, LastCards(due[..k + 1], yes, no, shared)))]
    ensures LastCards(due[..k + 1], yes, no, true)
         == SharedCards(due[k].1, yes + IdSuffix(AllIds(due[..k])), no + IdSuffix(AllIds(due[..k])))
    ensures LastCards(due[..k + 1], yes, no, false) == OwnCards(due[k].1, yes, no)
  {
    assert due[..k + 1][..k] == due[..k];
    assert due[..k + 1][k] == due[k];
    MarkAllAppend(m, AllIds(due[..k]), IdsOf(due[k].1));
    IdSuffixAppend(AllIds(due[..k]), IdsOf(due[k].1));
  }

  /** The shared footer's text after one more owner's ids are appended. */
  lemma SharedFooterStep(due: Due, k: nat, caption: string, text: string)
    requires k < |due|
    requires text == caption + IdSuffix(AllIds(due[..k])) + IdSuffix(IdsOf(due[k].1))
    ensures text == caption + IdSuffix(AllIds(due[..k + 1]))
  {
    SweepOwnerStep(due, k, map[], caption, caption, true);
  }

  /**
   * One owner's turn of the sweep as written, composed onto the turns
   * before it: the store and the log after the turn are those of the sweep
   * over one more owner.
   */
  lemma SharedSweepStep(due: Due, k: nat, m: Lendings, yes: string, no: string,
                        e0: seq<Event>, before: seq<Event>, after: seq<Event>, now: Lendings)
    requires k < |due|
    requires before == e0 + SweepEvents(due[..k], yes, no, true)
    requires now == MarkAll(MarkAll(m, AllIds(due[..k])), IdsOf(due[k].1))
    requires after == before + StartEvents(IdsOf(due[k].1))
                      + [Sent(PushCards(due[k].0, SharedCards(due[k].1, yes + IdSuffix(AllIds(due[..k])),
                                                              no + IdSuffix(AllIds(due[..k])))))]
    ensures now == MarkAll(m, AllIds(due[..k + 1]))
    ensures after == e0 + SweepEvents(due[..k + 1], yes, no, true)
  {
    SweepOwnerStep(due, k, m, yes, no, true);
    var push := [Sent(PushCards(due[k].0, LastCards(due[..k + 1], yes, no, true)))];
    var done := SweepEvents(due[..k], yes, no, true);
    var starts := StartEvents(IdsOf(due[k].1));
    assert after == e0 + done + starts + push;
    assert SweepEvents(due[..k + 1], yes, no, true) == done + starts + push;
    EventsAssoc(e0, done, starts, push);
  }

  lemma EventsAssoc(a: seq<Event>, b: seq<Event>, c: seq<Event>, d: seq<Event>)
    ensures a + b + c + d == a + (b + c + d)
  {
  }

  /** One owner's turn of the intended sweep, composed onto the turns before it. */
  lemma OwnSweepStep(due: Due, k: nat, m: Lendings, yes: string, no: string,
                     e0: seq<Event>, before: seq<Event>, after: seq<Event>, now: Lendings)
    requires k < |due|
    requires before == e0 + SweepEvents(due[..k], yes, no, false)
    requires now == MarkAll(MarkAll(m, AllIds(due[..k])), IdsOf(due[k].1))
    requires after == before + StartEvents(IdsOf(due[k].1))
                      + [Sent(PushCards(due[k].0, OwnCards(due[k].1, yes, no)))]
    ensures now == MarkAll(m, AllIds(due[..k + 1]))
    ensures after == e0 + SweepEvents(due[..k + 1], yes, no, false)
  {
    SweepOwnerStep(due, k, m, yes, no, false);
  }

  lemma {:induction false} MarkAllAppend(m: Lendings, a: seq<LendingId>, b: seq<LendingId>)
    ensures MarkAll(m, a + b) == MarkAll(MarkAll(m, a), b)
  {
    if b == [] {
      assert a + b == a;
    } else {
      assert (a + b)[..|a + b| - 1] == a + b[..|b| - 1];
      MarkAllAppend(m, a, b[..|b| - 1]);
    }
  }

  /**
   * After the sweep exactly the due lendings are confirming: each due id the
   * store holds has its flag set and nothing else of it changed; every other
   * lending is untouched.
   */
  lemma {:induction false} MarkAllEffect(m: Lendings, ids: seq<LendingId>)
    ensures MarkAll(m, ids).Keys == m.Keys
    ensures forall k :: k in m ==>
      MarkAll(m, ids)[k] == if k in ids then m[k].(isConfirmingReturned := true) else m[k]
  {
    if ids != [] {
      var front := ids[..|ids| - 1];
      MarkAllEffect(m, front);
      assert forall k :: k in ids <==> k in front || k == ids[|ids| - 1];
    }
  }

  /**
   * If every due lending the store holds has a borrower, the sweep keeps the
   * rule that a confirming lending has a borrower.
   */
  lemma SweepKeepsConsistent(m: Lendings, ids: seq<LendingId>)
    requires Reply.Consistent(m)
    requires forall k :: k in ids && k in m ==> m[k].borrowerId.Some?
    ensures Reply.Consistent(MarkAll(m, ids))
  {
    MarkAllEffect(m, ids);
  }

  /** The sweep calls `start_confirming_returned` once per due lending, in order, and nothing else. */
  lemma {:induction false} SweepCalls(due: Due, yes: string, no: string, shared: bool)
    ensures CallsOf(SweepEvents(due, yes, no, shared)) == Starts(AllIds(due))
  {
    if due != [] {
      var front := due[..|due| - 1];
      SweepCalls(front, yes, no, shared);
      CallsStep(due, yes, no, shared);
      assert Starts(AllIds(front) + IdsOf(due[|due| - 1].1))
          == Starts(AllIds(front)) + Starts(IdsOf(due[|due| - 1].1));
    }
  }

  /** One more owner processed: the sweep's calls grow by that owner's starts. */
  lemma CallsStep(due: Due, yes: string, no: string, shared: bool)
    requires due != []
    ensures CallsOf(SweepEvents(due, yes, no, shared))
         == CallsOf(SweepEvents(due[..|due| - 1], yes, no, shared)) + Starts(IdsOf(due[|due| - 1].1))
  {
    var done := SweepEvents(due[..|due| - 1], yes, no, shared);
    var starts := StartEvents(IdsOf(due[|due| - 1].1));
    var push := [Sent(PushCards(due[|due| - 1].0, LastCards(due, yes, no, shared)))];
    CallsOfAppend(done + starts, push);
    CallsOfAppend(done, starts);
    StartEventsCalls(IdsOf(due[|due| - 1].1));
    assert CallsOf(push) == CallsOf([]) + [];
  }

  lemma {:induction false} StartEventsCalls(ids: seq<LendingId>)
    ensures CallsOf(StartEvents(ids)) == Starts(ids)
  {
    if ids != [] {
      var front := ids[..|ids| - 1];
      StartEventsCalls(front);
      assert StartEvents(ids)[..|ids| - 1] == StartEvents(front);
      assert Starts(ids) == Starts(front) + [StartConfirmingReturned(ids[|ids| - 1])];
    }
  }

  lemma {:induction false} StartEventsSendNothing(ids: seq<LendingId>)
    ensures MessagesOf(StartEvents(ids)) == []
  {
    if ids != [] {
      StartEventsSendNothing(ids[..|ids| - 1]);
      assert StartEvents(ids)[..|ids| - 1] == StartEvents(ids[..|ids| - 1]);
    }
  }

  /**
   * The sweep sends exactly one push per owner, in order, to that owner,
   * holding the cards of that owner's due lendings.
   */
  lemma {:induction false} SweepPushes(due: Due, yes: string, no: string, shared: bool)
    ensures |MessagesOf(SweepEvents(due, yes, no, shared))| == |due|
    ensures forall i :: 0 <= i < |due| ==>
      MessagesOf(SweepEvents(due, yes, no, shared))[i]
        == PushCards(due[i].0, LastCards(due[..i + 1], yes, no, shared))
  {
    if due != [] {
      var front := due[..|due| - 1];
      SweepPushes(front, yes, no, shared);
      PushesStep(due, yes, no, shared);
      var ms := MessagesOf(SweepEvents(due, yes, no, shared));
      forall i | 0 <= i < |due|
        ensures ms[i] == PushCards(due[i].0, LastCards(due[..i + 1], yes, no, shared))
      {
        if i < |front| {
          assert front[..i + 1] == due[..i + 1];
        } else {
          assert due[..i + 1] == due;
        }
      }
    }
  }

  /** One more owner processed: the sweep's messages grow by that owner's push. */
  lemma PushesStep(due: Due, yes: string, no: string, shared: bool)
    requires due != []
    ensures MessagesOf(SweepEvents(due, yes, no, shared))
         == MessagesOf(SweepEvents(due[..|due| - 1], yes, no, shared))
            + [PushCards(due[|due| - 1].0, LastCards(due, yes, no, shared))]
  {
    var done := SweepEvents(due[..|due| - 1], yes, no, shared);
    var starts := StartEvents(IdsOf(due[|due| - 1].1));
    var push := [Sent(PushCards(due[|due| - 1].0, LastCards(due, yes, no, shared)))];
    MessagesOfAppend(done + starts, push);
    MessagesOfAppend(done, starts);
    StartEventsSendNothing(IdsOf(due[|due| - 1].1));
    assert MessagesOf(push) == MessagesOf([]) + [push[0].message];
  }

  /**
   * Each card shows its lending's alt text; as written its action texts are
   * the captions followed by every id processed up to its push, corrected
   * they are the captions followed by its own id.
   */
  lemma CardAtTexts(due: Due, yes: string, no: string, shared: bool, i: nat, j: nat)
    requires i < |due| && j < |due[i].1|
    ensures var c := CardAt(due, yes, no, shared, i, j); var ids := IdsUpTo(due, i, j);
      && c.altText == AltText(due[i].1[j])
      && (shared ==> c.yesText == yes + IdSuffix(ids) && c.noText == no + IdSuffix(ids))
      && (!shared ==> c.yesText == yes + " " + due[i].1[j].id && c.noText == no + " " + due[i].1[j].id)
  {
    assert due[..i + 1][i] == due[i];
    assert due[..i + 1][..i] == due[..i];
    if shared {
      var before := IdSuffix(AllIds(due[..i]));
      var mine := IdSuffix(IdsOf(due[i].1[..j + 1]));
      var c := SharedCards(due[i].1, yes + before, no + before)[j];
      assert CardAt(due, yes, no, shared, i, j) == c;
      IdSuffixAppend(AllIds(due[..i]), IdsOf(due[i].1[..j + 1]));
      StringAssoc(yes, before, mine);
      StringAssoc(no, before, mine);
    }
  }

  lemma SuffixAssoc(text: string, suffix: string, id: LendingId)
    ensures text + suffix + " " + id == text + (suffix + " " + id)
  {
  }

  lemma StringAssoc(a: string, b: string, c: string)
    ensures a + b + c == a + (b + c)
  {
  }

  /** The ids appended up to a card are a prefix of all due ids, one longer than its position. */
  lemma IdsUpToPrefix(due: Due, i: nat, j: nat)
    requires i < |due| && j < |due[i].1|
    ensures IdsUpTo(due, i, j) <= AllIds(due)
    ensures |IdsUpTo(due, i, j)| == |AllIds(due[..i])| + j + 1
  {
    assert due[..i + 1][..i] == due[..i];
    assert AllIds(due[..i + 1]) == AllIds(due[..i]) + IdsOf(due[i].1);
    AllIdsPrefix(due, i + 1);
  }

  /**
   * As written: every action text of a card is the caption followed by all
   * ids the sweep has appended by the time the card is built, so it splits
   * into the caption and those ids.
   */
  lemma SharedFooterTokens(due: Due, yes: string, no: string, i: nat, j: nat)
    requires IsWord(yes) && IsWord(no) && AllWords(AllIds(due))
    requires i < |due| && j < |due[i].1|
    ensures var c := CardAt(due, yes, no, true, i, j);
      && Split(c.yesText) == [yes] + IdsUpTo(due, i, j)
      && Split(c.noText) == [no] + IdsUpTo(due, i, j)
  {
    CardAtTexts(due, yes, no, true, i, j);
    IdsUpToPrefix(due, i, j);
    SplitLabelledIds(yes, IdsUpTo(due, i, j));
    SplitLabelledIds(no, IdsUpTo(due, i, j));
  }

  lemma {:induction false} AllIdsPrefix(due: Due, k: nat)
    requires k <= |due|
    ensures AllIds(due[..k]) <= AllIds(due)
  {
    if k < |due| {
      var front := due[..|due| - 1];
      assert due[..k] == front[..k];
      AllIdsPrefix(front, k);
    } else {
      assert due[..k] == due;
    }
  }

  /**
   * As written: every card built once two or more ids have been appended —
   * that is, every card but the first of the whole sweep — sends a text of
   * more than two tokens from either button, which the reply interpreter
   * answers with a filler and ignores, whatever the store holds.
   */
  lemma SharedFooterRepliesAreChatter(due: Due, yes: string, no: string, i: nat, j: nat, m: Lendings)
    requires IsWord(yes) && IsWord(no) && AllWords(AllIds(due))
    requires i < |due| && j < |due[i].1| && |IdsUpTo(due, i, j)| >= 2
    ensures var c := CardAt(due, yes, no, true, i, j);
      Reply.Classify(c.yesText, m) == Reply.Chatter && Reply.Classify(c.noText, m) == Reply.Chatter
  {
    SharedFooterTokens(due, yes, no, i, j);
  }

  /** The ids and the footer suffixes of a sweep over one owner with two lendings. */
  lemma TwoLendingSweep(l1: Lending, l2: Lending)
    ensures var due: Due := [("owner", [l1, l2])];
      && AllIds(due) == [l1.id, l2.id]
      && IdsUpTo(due, 0, 0) == [l1.id]
      && IdsUpTo(due, 0, 1) == [l1.id, l2.id]
      && IdSuffix([l1.id]) == " " + l1.id
  {
    var due: Due := [("owner", [l1, l2])];
    var ids := [l1.id, l2.id];
    assert due[..1] == due;
    assert due[..0] == [];
    assert AllIds(due) == ids by {
      assert IdsOf([l1, l2]) == ids;
    }
    assert [l1, l2][..1] == [l1];
    assert [l1, l2][..2] == [l1, l2];
    assert [l1.id][..0] == [];
  }

  /**
   * A sweep that shows it: one owner, two lendings. The first card carries
   * `はい <id1>` and works; the second carries `はい <id1> <id2>` and
   * `いいえ <id1> <id2>`, so although the sweep leaves the second lending
   * confirming, either tap on its card is read as chatter.
   */
  lemma SharedFooterCounterexample(l1: Lending, l2: Lending, m: Lendings)
    requires IsWord(l1.id) && IsWord(l2.id) && l1.id in m && l2.id in m
    ensures var due: Due := [("owner", [l1, l2])];
      var after := MarkAll(m, AllIds(due));
      var first := CardAt(due, Reply.Yes, Reply.No, true, 0, 0);
      var second := CardAt(due, Reply.Yes, Reply.No, true, 0, 1);
      && first.yesText == Reply.Yes + " " + l1.id
      && second.yesText == Reply.Yes + IdSuffix([l1.id, l2.id])
      && second.noText == Reply.No + IdSuffix([l1.id, l2.id])
      && l1.id in after && l2.id in after
      && after[l1.id].isConfirmingReturned && after[l2.id].isConfirmingReturned
      && Reply.Classify(first.yesText, after) == Reply.Affirm(l1.id)
      && Reply.Classify(second.yesText, after) == Reply.Chatter
      && Reply.Classify(second.noText, after) == Reply.Chatter
  {
    var due: Due := [("owner", [l1, l2])];
    DueIdConfirmed(due, 0, 0, m);
    DueIdConfirmed(due, 0, 1, m);
    FirstSharedCard(l1, l2, MarkAll(m, AllIds(due)));
    SecondSharedCard(l1, l2, MarkAll(m, AllIds(due)));
  }

  /** The first card of the two-lending sweep carries its own id alone. */
  lemma FirstSharedCard(l1: Lending, l2: Lending, after: Lendings)
    requires IsWord(l1.id) && l1.id in after && after[l1.id].isConfirmingReturned
    ensures var first := CardAt([("owner", [l1, l2])], Reply.Yes, Reply.No, true, 0, 0);
      && first.yesText == Reply.Yes + " " + l1.id
      && Reply.Classify(first.yesText, after) == Reply.Affirm(l1.id)
  {
    TwoLendingSweep(l1, l2);
    CardAtTexts([("owner", [l1, l2])], Reply.Yes, Reply.No, true, 0, 0);
    CaptionsAreWords();
    Reply.ButtonText(Reply.Yes, l1.id, after);
    StringAssoc(Reply.Yes, " ", l1.id);
  }

  /** The second card of the two-lending sweep carries both ids, so it is chatter. */
  lemma SecondSharedCard(l1: Lending, l2: Lending, after: Lendings)
    requires IsWord(l1.id) && IsWord(l2.id)
    ensures var second := CardAt([("owner", [l1, l2])], Reply.Yes, Reply.No, true, 0, 1);
      && second.yesText == Reply.Yes + IdSuffix([l1.id, l2.id])
      && second.noText == Reply.No + IdSuffix([l1.id, l2.id])
      && Reply.Classify(second.yesText, after) == Reply.Chatter
      && Reply.Classify(second.noText, after) == Reply.Chatter
  {
    var due: Due := [("owner", [l1, l2])];
    TwoLendingSweep(l1, l2);
    CardAtTexts(due, Reply.Yes, Reply.No, true, 0, 1);
    CaptionsAreWords();
    SharedFooterRepliesAreChatter(due, Reply.Yes, Reply.No, 0, 1, after);
  }

  /**
   * Corrected: with a footer of its own per card, the buttons of the card of
   * a due lending send back exactly the keyword and that lending's id, and
   * against the store the sweep leaves behind they close or defer exactly
   * that lending.
   */
  lemma OwnFooterRoundTrip(due: Due, i: nat, j: nat, m: Lendings)
    requires AllWords(AllIds(due))
    requires i < |due| && j < |due[i].1| && due[i].1[j].id in m
    ensures var c := CardAt(due, Reply.Yes, Reply.No, false, i, j);
      var id := due[i].1[j].id;
      && Split(c.yesText) == [Reply.Yes, id]
      && Split(c.noText) == [Reply.No, id]
      && Reply.Classify(c.yesText, MarkAll(m, AllIds(due))) == Reply.Affirm(id)
      && Reply.Classify(c.noText, MarkAll(m, AllIds(due))) == Reply.Deny(id)
  {
    var id := due[i].1[j].id;
    var c := CardAt(due, Reply.Yes, Reply.No, false, i, j);
    var after := MarkAll(m, AllIds(due));
    CardAtTexts(due, Reply.Yes, Reply.No, false, i, j);
    DueIdConfirmed(due, i, j, m);
    DueIdIsWord(due, i, j);
    OwnCardReplies(c, id, after);
  }

  /**
   * A card whose buttons carry the keywords followed by one confirming
   * lending's id: each button's text splits into its keyword and that id,
   * and closes or defers that lending.
   */
  lemma OwnCardReplies(c: Card, id: LendingId, m: Lendings)
    requires IsWord(id) && id in m && m[id].isConfirmingReturned
    requires c.yesText == Reply.Yes + " " + id && c.noText == Reply.No + " " + id
    ensures Split(c.yesText) == [Reply.Yes, id] && Split(c.noText) == [Reply.No, id]
    ensures Reply.Classify(c.yesText, m) == Reply.Affirm(id)
    ensures Reply.Classify(c.noText, m) == Reply.Deny(id)
  {
    CaptionsAreWords();
    SplitLabelledId(Reply.Yes, id);
    SplitLabelledId(Reply.No, id);
    Reply.ButtonText(Reply.Yes, id, m);
    Reply.ButtonText(Reply.No, id, m);
  }

  lemma CaptionsAreWords()
    ensures IsWord(Reply.Yes) && IsWord(Reply.No)
  {
  }

  lemma DueIdIsWord(due: Due, i: nat, j: nat)
    requires AllWords(AllIds(due))
    requires i < |due| && j < |due[i].1|
    ensures IsWord(due[i].1[j].id)
  {
    DueIdListed(due, i, j);
  }

  /** After the sweep, every due lending the store holds is confirming. */
  lemma DueIdConfirmed(due: Due, i: nat, j: nat, m: Lendings)
    requires i < |due| && j < |due[i].1| && due[i].1[j].id in m
    ensures var after := MarkAll(m, AllIds(due));
      due[i].1[j].id in after && after[due[i].1[j].id].isConfirmingReturned
  {
    DueIdListed(due, i, j);
    MarkAllEffect(m, AllIds(due));
  }

  lemma {:induction false} DueIdListed(due: Due, i: nat, j: nat)
    requires i < |due| && j < |due[i].1|
    ensures due[i].1[j].id in AllIds(due)
  {
    var front := due[..|due| - 1];
    if i < |due| - 1 {
      DueIdListed(front, i, j);
    } else {
      assert IdsOf(due[i].1)[j] == due[i].1[j].id;
    }
  }
}
