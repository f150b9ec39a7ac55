# Lending bot core, modelled in Dafny

The system is a small lending tracker with a chat bot. An owner records that they lent something to someone, and the borrower binds themselves to the record through a shared link. When a deadline comes near, a sweep sends the owner a card that asks "did it come back?". The owner answers by tapping `はい` (yes) or `いいえ` (no). The card's button sends a text back to the bot: the keyword, a space and the lending id.

This project models three pieces of that system:

- **The reply interpreter** (`handle_message`). It splits the inbound text on Unicode whitespace, the way Python's argument-less `str.split()` does. Any text that is not exactly two tokens gets a filler reply drawn from a pool, and so does a lending that is not awaiting confirmation. For a lending that is awaiting confirmation:
  - `はい` thanks both parties, registers the return and clears the flag.
  - `いいえ` nudges the borrower and only clears the flag.
  - Any other keyword asks for yes or no.
- **The reminder sweep** (`send_message_for_deadline_lendings`). For each owner, in order, it marks every due lending as confirming, appends `" <id>"` to the two button texts and builds one card per lending, then pushes the owner's cards. The chat SDK converts a card's contents into objects of its own when the card is built, so each card keeps the button texts as they stood at that moment. It is modelled twice: once as written (see Findings) and once as evidently intended.
- **The web service guards** (`LendingService`):
  - `fetch_lending` refuses a caller who is not the bound borrower.
  - `register_lending_return` refuses anyone but the owner, before any state change.
  - `register_borrower` and `register_lending` reshape what the use case returns.

Modules:

| module | what it holds |
|---|---|
| `Wrappers` | `Option` and `Result`. |
| `Tokens` | The whitespace split, `" ".join`, and the suffix of `" <id>"` pieces the sweep appends. Also the lemmas that `Split` undoes them. |
| `Events` | The abstract outbound traffic (`Reply`, `Push`, `PushCards`) and the use-case calls. Both go into one shared `EventLog`, so the order of sends and calls can be observed. |
| `Line` | The chat gateway (`Gateway`) and the template's `Footer`, an object whose two button texts are changed in place. A pushed card (`Events.Card`) is a value: the texts it was built with. |
| `Store` | The use-case layer. The repositories behind it are not part of this model, so it is an abstract `LendingStore`. Its state is a map from id to `Lending`, the creation order of the ids, and the users the directory has met (owners who registered a lending, borrowers who were bound). Each operation's effect is stated as the contract the core relies on. |
| `Reply` | The specification of `handle_message`: the branch a text takes (`Classify`), the resulting store (`Outcome`), and what the branch logs (`Script`, `Answered`). |
| `Sweep` | The specification of the sweep (`SweepEvents`, `MarkAll`, `CardAt`) and its properties, including the finding. |
| `Bot` | `BotService`, imperative: `HandleMessage`, `ResponseRandom`, and the two sweeps with their nested loops. |
| `Service` | `LendingService`, one instance per request, acting for `caller`. |

## Model

| member | source | states |
|---|---|---|
| Bot.BotService.HandleMessage | back/src/api/service/bot.py:25-71 | The store ends as `Outcome(Classify(text))` says. The log grows by exactly what that branch sends and calls, in source order. An id the store does not know raises NotFound, with nothing sent and nothing changed. The id order and the user set are untouched. |
| Bot.BotService.AnswerConfirming | back/src/api/service/bot.py:44-71 | For a confirming lending, the keyword picks `はい`, `いいえ` or "ask again". The store and the log end as `Outcome` and `Script` say for that branch. |
| Bot.BotService.AcceptReturn | back/src/api/service/bot.py:44-48 | Thanks the owner and the lending's borrower, records the return at `now`, then clears the flag, in that order. Nothing else changes. |
| Bot.BotService.DeclineReturn | back/src/api/service/bot.py:50-65 | Sends two texts to the owner, nudges the borrower, then clears the flag. The return time is untouched. |
| Bot.BotService.ResponseRandom | back/src/api/service/bot.py:73-77 | Appends exactly one reply to the given token. Its single text is an element of the filler pool. |
| Reply.OutcomeNeedsConfirming | back/src/api/service/bot.py:36-42 | The store changes only for `はい` or `いいえ` on an existing lending that is confirming. A non-confirming lending is left unchanged even on `はい`. |
| Reply.OutcomeFrame | back/src/api/service/bot.py:44-65 | The handler only changes the flag and the return time of the named lending. The flag ends cleared. `returned_at` changes only on `はい`, and then it becomes `now`. It keeps "confirming implies a borrower". |
| Reply.ReplayIsInert | back/src/api/service/bot.py:40-48 | Handling the same text a second time changes nothing and calls nothing. A replayed `はい <id>` or `いいえ <id>` lands in the not-confirming branch, so the return is registered only once. |
| Reply.ButtonText | back/src/api/service/bot.py:28-44 | A text made of a keyword, one space and an id is read as that keyword and that id, whatever the store's state. |
| Tokens.WordLength | back/src/api/service/bot.py:28 | The first token of a text that starts with a non-space is a non-empty run of non-whitespace characters, ended by whitespace or by the end of the text. |
| Tokens.Split | back/src/api/service/bot.py:28 | Every token of the split is non-empty and contains no whitespace. |
| Tokens.SplitUnwords | back/src/api/service/bot.py:28 | Splitting words joined by single spaces gives back the words. |
| Tokens.SplitLabelledIds | back/src/api/service/bot.py:95-96 | A caption followed by `" <id>"` for each id splits into the caption and then the ids. |
| Tokens.SplitLabelledId | back/src/api/service/bot.py:28-34 | A keyword, one space and an id split into exactly those two tokens. |
| Tokens.SplitBlank | back/src/api/service/bot.py:28-30 | A text made only of whitespace has no tokens, so it takes the filler branch. |
| Tokens.IdSuffixAppend | back/src/api/service/bot.py:95-96 | Appending the suffixes of two runs of ids in turn is the same as appending the suffix of both runs at once. |
| Tokens.IdSuffixIsUnwords | back/src/api/service/bot.py:95-96 | A caption followed by the suffix of some ids is those words joined by single spaces. |
| Bot.BotService.SendMessageForDeadlineLendings | back/src/api/service/bot.py:82-103 | The sweep as written, with one shared footer. The store ends as `MarkAll` over every due id, and the id order and the user set are untouched. The log is exactly `SweepEvents(..., shared)`: each card holds the captions followed by every id appended up to its own. |
| Bot.BotService.ConfirmSharingFooter | back/src/api/service/bot.py:91-101 | The inner loop as written. It starts confirming each lending in order and appends `" <id>"` to both shared texts for each of them. The j-th card holds the texts the footer had on entry followed by the ids of the first j + 1 lendings (`SharedCards`). |
| Bot.BotService.ConfirmSharingOne | back/src/api/service/bot.py:92-101 | One lending: starts confirming it, appends its id to both shared texts, and builds its card from the texts as they now stand. |
| Bot.BotService.RemindSharingFooter | back/src/api/service/bot.py:89-103 | One owner's turn as written. After the inner loop, it pushes that owner's cards, each built with the shared texts as they stood right after its own id was appended. |
| Bot.BotService.SendMessageForDeadlineLendingsOwnFooters | back/src/api/service/bot.py:82-103 | The intended sweep, where each card has its own footer. Store and log are as for the sweep as written, except that each card shows only its own id. |
| Bot.BotService.ConfirmWithOwnFooters | back/src/api/service/bot.py:91-101 | The intended inner loop. The j-th card's texts are the captions followed by `" <id>"` of the j-th lending. |
| Bot.BotService.RemindWithOwnFooters | back/src/api/service/bot.py:89-103 | One owner's turn of the intended sweep. It pushes `OwnCards` to that owner. |
| Sweep.SweepCalls | back/src/api/service/bot.py:88-92 | The sweep calls `start_confirming_returned` exactly once per due lending, in order, and calls nothing else. |
| Sweep.SweepPushes | back/src/api/service/bot.py:88-103 | The sweep sends exactly one push per owner, in order, to that owner. Each push holds the cards of that owner's lendings. |
| Sweep.LastCards | back/src/api/service/bot.py:98-103 | An owner's push has exactly one card per due lending of that owner. |
| Sweep.MarkAllEffect | back/src/api/service/bot.py:92 | After the sweep, every due lending is confirming and nothing else of it changed. Every other lending is untouched. |
| Sweep.SweepKeepsConsistent | back/src/api/service/bot.py:92 | If every due lending has a borrower, the sweep keeps the rule that a confirming lending has a borrower. |
| Sweep.CardAtTexts | back/src/api/service/bot.py:93-101 | Each card's alt text names the borrower and the content. As written, its action texts are the captions followed by every id appended up to and including its own (`IdsUpTo`). Corrected, they are the captions followed by its own id. |
| Sweep.IdsUpToPrefix | back/src/api/service/bot.py:88-96 | The ids on a card are a prefix of all due ids, as many as the lendings processed up to and including that card's. |
| Sweep.SharedFooterTokens | back/src/api/service/bot.py:93-96 | As written, each action text splits into the caption and then the ids appended up to and including the card's own. |
| Sweep.SharedFooterRepliesAreChatter | back/src/api/service/bot.py:30-32 | As written, every card built after two or more ids were appended (every card but the sweep's first) sends a text that either button makes chatter. |
| Sweep.SharedFooterCounterexample | back/src/api/service/bot.py:93-96 | One owner with two due lendings. Both are confirming after the sweep. The first card sends `はい <id1>` and closes the first lending. The second card sends `はい <id1> <id2>` or `いいえ <id1> <id2>`, and both are read as chatter. |
| Sweep.FirstSharedCard | back/src/api/service/bot.py:93-101 | In that sweep, the first card's `はい` text is the keyword and the first id, and it affirms the first lending. |
| Sweep.SecondSharedCard | back/src/api/service/bot.py:93-101 | In that sweep, the second card's texts carry both ids, and both buttons are chatter. |
| Sweep.OwnFooterRoundTrip | back/src/api/service/bot.py:95-96 | Corrected: a card's buttons split into the keyword and that card's own id. Against the store the sweep leaves, they close or defer exactly that lending. |
| Sweep.OwnCardReplies | back/src/api/service/bot.py:40-50 | A card whose buttons carry a keyword and one confirming lending's id is answered as `はい` or `いいえ` for exactly that lending. |
| Sweep.DueIdConfirmed | back/src/api/service/bot.py:92 | After the sweep, every due lending that the store holds is confirming. |
| Store.LendingStore.FetchLending | back/src/api/service/bot.py:36 | The stored lending, or NotFound for an unknown id. |
| Store.LendingStore.IsValidOwner | back/src/api/service/lending.py:177 | True exactly when the lending exists and the user owns it. |
| Store.LendingStore.FetchLentList | back/src/api/service/lending.py:133 | Exactly the stored lendings whose owner is the user. |
| Store.LendingStore.FetchBorrowedList | back/src/api/service/lending.py:151 | Exactly the stored lendings whose borrower is the user. |
| Store.LendingStore.AddLending | back/src/api/service/lending.py:36 | Adds a new open lending with no borrower under the fresh id, appends the id to the creation order, records the owner as met, and records the call. |
| Store.LendingStore.RegisterSentUrl | back/src/api/service/lending.py:46 | Sets the "URL sent" flag of that lending and records the call. |
| Store.LendingStore.AssociateBorrower | back/src/api/service/lending.py:105 | NotFound for an unknown id. BorrowerAlreadyExists if another user is already bound, with nothing changed. Otherwise it binds the borrower and reports whether the borrower is new. |
| Store.LendingStore.StartConfirmingReturned | back/src/api/service/bot.py:92 | Sets that lending's confirming flag and records the call. |
| Store.LendingStore.FinishConfirmingReturned | back/src/api/service/bot.py:48 | Clears that lending's confirming flag and records the call. |
| Store.LendingStore.RegisterReturnLending | back/src/api/service/bot.py:47 | Sets that lending's return time to `now`, records the call, and returns the updated lending. |
| Store.LentByExactly | back/src/api/service/lending.py:133 | The owner's list holds exactly the owner's lendings. |
| Store.BorrowedByExactly | back/src/api/service/lending.py:151 | The borrower's list holds exactly the borrower's lendings. |
| Service.LendingService.FetchLending | back/src/api/service/lending.py:67-75 | Fails with BorrowerAlreadyExists exactly when a borrower is bound and differs from the caller. Otherwise it returns the stored lending unchanged. NotFound for an unknown id. It changes nothing. |
| Service.LendingService.RegisterLendingReturn | back/src/api/service/lending.py:176-184 | A non-owner gets InvalidOwner, with the store and the log untouched, so no return is registered. The owner gets the result of `register_return_lending` for that id. The id order and the user set never change. |
| Service.LendingService.RegisterLending | back/src/api/service/lending.py:35-37 | Returns the new id together with the deadline it was given. The caller becomes the owner of a new lending that has no borrower. The id joins the end of the creation order, and the caller joins the users met. |
| Service.LendingService.RegisterBorrower | back/src/api/service/lending.py:103-116 | On success, returns status `success` with the lending's id, content, deadline and owner name, and the `is_new_user` flag. The use case's failures pass through unchanged. The id order never changes. |
| Service.LendingService.RegisterSentUrl | back/src/api/service/lending.py:39-46 | Delegates to the use case: the flag is set and the call is recorded. The id order and the user set are untouched. |
| Service.LendingService.GetOwnerLending | back/src/api/service/lending.py:118-134 | Exactly the lendings the caller lent. |
| Service.LendingService.GetBorrowerLending | back/src/api/service/lending.py:136-153 | Exactly the lendings the caller borrowed. |
| Service.BoundLendingIsPrivate | back/src/api/service/lending.py:72-73 | Once a borrower is bound, the lending passes the `fetch_lending` guard for that user and for nobody else. Binding the same user again changes nothing. |

## Left out

- The LINE SDK is not part of this model. That covers `LineBotApi`, `WebhookHandler`, webhook signature checking in `handle_hook` (bot.py:79-80) and the `@handler.add` registration (bot.py:24). `Gateway` only appends abstract sends to the log.
- A card snapshots its contents when it is built. This assumes the chat SDK's behaviour of converting the contents dictionary into its own objects at construction (bot.py:98). The SDK's code is not part of this model.
- The loading and layout of `confirm_message.json` (bot.py:85-86) are not modelled. Of the card template, only the two action texts are kept: `yesCaption` and `noCaption` are parameters, and `Reply.Yes` and `Reply.No` are the keywords those texts start with.
- Bot.BotService.ResponseRandom: `random.choice` is modelled as some element of the pool, not as a random draw. The pool must be non-empty (it is a fixed constant in the system).
- The `print` of the inbound text (bot.py:27) is left out.
- `get_user_profile`, which resolves the access token to a profile over the network, is left out. The resolved profile is `LendingService.caller`.
- The internals of `LendingUseCase` and the repositories are not part of this model. Their effects are assumed contracts of `Store.LendingStore`. Operations on a missing id leave the map as it is but are still recorded.
- How `fetch_deadline_lending_list` chooses due lendings (the deadline criteria) is left out. The due map is an input of the sweep: a sequence of (owner, lendings) pairs in the map's iteration order.
- Bot.BotService.HandleMessage: when the use case raises NotFound for an unknown id, the model returns the error as `raised`. Nothing is sent and nothing changes. The handler itself has no not-found guard and no check on the sender.
- The new lending's id is chosen by the repository, outside this model. `AddLending` and `RegisterLending` take it as a fresh `newId`.
- Store.LendingStore.FetchLentList: states which lendings are in the list, not their order. The order of the repository's query is not part of this model.
- Store.LendingStore.FetchBorrowedList: states which lendings are in the list, not their order, for the same reason.
- Lending ids are one abstract string type. The mismatch between string ids from chat text and integer ids elsewhere (bot.py:34-36) is not modelled.
- A push to a lending with no bound borrower is logged with recipient `None`, as the code passes it. What the SDK does with it is not modelled.
- Concurrency is not modelled: no racing sweeps and replies, and no duplicate webhook delivery. Replays are modelled sequentially (`Reply.ReplayIsInert`).
- Times are opaque integers. No time zones and no datetime arithmetic.
- The docstring of `register_lending` (lending.py:32) says the second result is the creation time. The code returns the deadline it was given, and the model follows the code.

## Findings

| source | as written | input that shows it | evidently intended | confidence | as-written member | corrected member |
|---|---|---|---|---|---|---|
| back/src/api/service/bot.py:93-96 | `base_contents.copy()` is shallow, so every card shares the template's single footer. Each lending's `" <id>"` is appended to that shared footer, so the suffixes pile up over the whole sweep. Each card is built right after its own id is appended, so it carries the captions followed by every id processed up to its own. | One owner with two due lendings. The first card's buttons send `はい <id1>` and work. The second card's buttons send `はい <id1> <id2>`, three tokens, so the reply goes to the filler branch and the second lending cannot be confirmed from its card. In general, only the sweep's first card works. | Each card's buttons send only the keyword and its own lending's id. | not executed | Sweep.SharedFooterCounterexample | Sweep.OwnFooterRoundTrip |
