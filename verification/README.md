# MintFlow: a verified model

MintFlow records personal expenses. A user types them to a Telegram bot, photographs receipts that
background workers read, or enters them on the web; then edits, deletes, browses and sums them up.
This project models the parts of MintFlow whose correctness is spread over several components and
proves what those parts promise, in Dafny. `dafny verify dfyconfig.toml` checks all of it.

There are four parts.

**Capture.** The tables of the capture protocol (drafts, receipts, recognition results,
conversations, expenses, processed updates, stored images) change by atomic steps: a bot update, the
web requests, a worker claiming, storing, finishing or announcing a receipt, retention, and unlinking.
A confirmation in the chat has two commits; the second may follow at once, come after other steps, or
never come. A *run* is any sequence of such steps that begins with empty tables or where an earlier run
ended with the deletion of an account. The main results hold in every state of every run: one open
Telegram draft per user and exactly what can lose it, at most three answers to review, one finishing
attempt and one result per receipt, leases that exclude each other, one expense per draft with exactly
the draft's values, and updates that take effect once. The handlers and repositories themselves are
methods of a class `Session` that changes tables row by row and commits; each is proved to do exactly
what the corresponding step says.

**History and audit.** Keyset pages read from a table that changes between pages, the opaque cursor,
the change records that replay an expense forward and back, and the edit form that merges stale forms.

**Dashboard.** Calendar, periods and chart buckets; group-by totals that every breakdown conserves;
conversion with its roundings in 28-digit decimals, a bound on their error, and what that means for a
dashboard converted group by group.

**Accounts.** Deletion under foreign keys, the clean-up of accounts that a restored backup brings
back, Telegram link ceremonies, the fixed-window rate limiter, and the choice of recognized values.

## Layout

| module | models |
|---|---|
| `CaptureDraft`, `Receipts`, `Conversations`, `Expenses`, `Amounts` | the entities of `domain/capture` and `application/telegram`, with their transitions |
| `DraftConfluence` | recognition against user edits on one draft |
| `CaptureFlow` | the bot's reply to one input, as a function of the locked conversation and its draft |
| `CaptureSystem` | tables, steps and what each step does |
| `CaptureFlowProofs`, `CaptureInvariants`, `CaptureSteps`, `CapturePointers` | what one turn, one step, and one step's conversations keep |
| `CaptureRuns` | runs, their moments, and what holds from one moment to a later one |
| `CaptureTracking`, `CaptureTheorems`, `CaptureResults`, `CaptureImages` | whole runs |
| `CaptureExamples` | runs that leave a user with two open drafts |
| `CaptureSession` | handlers, use cases, worker and repositories as methods over one database session |
| `ExpenseHistory`, `Digits`, `HistoryCursor`, `CursorReaders` | pages and cursors |
| `ExpenseAudit`, `ExpenseForm` | edits, deletions, their records, and the edit form |
| `Calendar`, `Periods` | the Gregorian calendar, periods, buckets and comparison windows |
| `Rounding`, `Rates`, `RateRefresh` | half-even and 28-digit rounding, conversion, rate refresh |
| `Sorting`, `Aggregates`, `Dashboard`, `ConvertedDashboard`, `ConvertedBuckets`, `ConvertedChampion` | group-bys and what the dashboard makes of them |
| `AccountDeletion`, `AccountRetention`, `AccountOwners` | deletion, clean-up, and why capture never blocks them |
| `TelegramLinks`, `RateLimit`, `Recognition` | link ceremonies, the limiter, choosing recognized values |

Conventions: times are integers, ids are opaque numbers chosen fresh, a user's local day is an input.
A request that a row lock or a conditional update makes atomic is one step; a confirmation
in the chat, which commits in the middle, is one step or two. `SKIP LOCKED` and batch
sizes become a free choice of rows. Whatever parses text (typed amounts, dates, names, JSON, ISO
timestamps, UUIDs) is an arbitrary function, limited only where a row below says so.

Where code and documentation differ, the model follows the code:

- `_converted_largest` says ties break as in the repository, towards the later expense. It compares
  only each currency's largest expense, so a later but smaller one that rounds to the same converted
  amount is overlooked: 1.00 and then 0.99 dollars at three dollars to the euro. The documented rule
  holds exactly when the documented expense is its own currency's largest
  (`ConvertedChampion.DocumentedIsFoundIff`, `ConvertedChampion.TheLaterOfTwoCanBeOverlooked`).
- A rate limit of zero would let one request through per window, because inserting a bucket skips the
  bound (`RateLimit.LimitZeroLetsOneThrough`). The program's own limits are 3 and 30, so no caller
  meets this.
- The web's ready action needs no amount, so it can put a draft in review that every confirmation
  refuses (`CaptureTheorems.WebReadyKeepsCompleteIff`, `CaptureTheorems.ReadyCanLeaveADeadEnd`).
- Unlinking forgets the conversation but not its draft, so linking again allows a second open draft
  (`CaptureTracking.UnlinkKeepsTrackingIff`, `CaptureExamples.UnlinkingCanLeaveTwoOpenDrafts`).
- A user's updates are meant to be serialized by the lock on the conversation. Confirming in the chat
  commits in the middle, which releases that lock, and then saves the idle conversation without looking
  at the row again. Another update of the same user that waited for the lock can open a draft in
  between; the late save loses it, and the next /add opens a second one
  (`CaptureExamples.ALateCommitCanLeaveTwoOpenDrafts`). It needs two updates of one user in progress at
  once, and happens exactly when a draft was opened between the commits
  (`CaptureTracking.LateCommitDisturbsIff`).
- A worker whose lease was taken over can store an image after retention removed it, thirty days after
  the draft was finished, and removed images come back in no other way
  (`CaptureImages.ImagesComeBackIff`, `CaptureImages.AStaleStoreBringsAnImageBack`).
- A draft's fields do not depend on when recognition arrives among the user's edits, but its state does
  (`DraftConfluence.StateAfterArrival`, `DraftConfluence.StateDependsOnArrival`), and so can an amount
  that the user restates in another currency (`DraftConfluence.CurrencyAnswerCommutesIff`).

## Model

| member | source | states |
|---|---|---|
| `CaptureTracking.OneOpenDraftPerUser` | src/mintflow/telegram/capture_flow.py:249-315 | In every reachable state two open Telegram drafts of one user are the same draft, it is the conversation's active one, and the question asked fits it (none while recognition runs; amount, merchant or category while collecting; past the amount question an amount is set), as long as the user had no such draft open when they unlinked or when the second commit of a confirmation of theirs came late; what other users do does not matter |
| `CaptureTracking.StepKeepsTrackingIff` | src/mintflow/telegram/capture_flow.py:602-617 | Of all steps of bot, web, workers, retention and crashes, exactly those two lose a user's open Telegram draft from the conversation |
| `CaptureTracking.LateCommitDisturbsIff` | src/mintflow/telegram/capture_flow.py:580-584 | The second commit of a confirmation does so if and only if a Telegram draft the user opened since its first commit is still open, whatever happened in between and whoever else's account was deleted |
| `CaptureExamples.ALateCommitCanLeaveTwoOpenDrafts` | src/mintflow/telegram/capture_flow.py:570-592 | A concrete run without unlinking: /add, 5 EUR, skip, a category, the first commit of its confirmation, /add, the second commit, /add; it ends with two open drafts of one user |
| `CaptureTracking.UnlinkKeepsTrackingIff` | src/mintflow/infrastructure/persistence/telegram_links.py:257-283 | Unlinking a user keeps "every open Telegram draft is its conversation's active draft" if and only if that user has no open Telegram draft |
| `CaptureExamples.UnlinkingCanLeaveTwoOpenDrafts` | src/mintflow/infrastructure/persistence/telegram_links.py:272 | A concrete run, /add, unlink, link and /add, that ends with two open drafts of one user |
| `CaptureTheorems.ReviewIsComplete` | src/mintflow/telegram/capture_flow.py:522-568 | In every run without the web's ready action, each Telegram draft in review has an amount and a date |
| `CaptureTheorems.WebReadyKeepsCompleteIff` | src/mintflow/domain/capture/draft.py:254-263 | The ready action keeps that if and only if it does not hit the caller's collecting Telegram draft without an amount |
| `CaptureTheorems.NoAmountNoConfirmation` | src/mintflow/domain/capture/draft.py:265-284 | A draft in review without an amount is refused by every confirmation, the bot's and the web's, and stays as it is |
| `CaptureTheorems.ReadyCanLeaveADeadEnd` | src/mintflow/http/capture.py:592-605 | A concrete run, /add in the chat and ready on the web, that ends with a draft in review whose confirmation is refused and changes nothing |
| `CaptureTheorems.StepLowersRank` | src/mintflow/telegram/capture_flow.py:337-415 | No step, late results included, raises the number of answers a draft still needs (amount, merchant, category), and a step that delivers a usable answer to the question asked lowers it |
| `CaptureTheorems.ThreeAnswersReachReview` | src/mintflow/telegram/capture_flow.py:522-552 | Over a whole run a draft takes at most three accepted answers, and after the third, as long as the conversation points at it, it is past collecting |
| `CaptureTheorems.ClosedDraftsAreFrozen` | src/mintflow/domain/capture/draft.py:72-75 | Between any two moments, with the owner's account kept, a confirmed, cancelled or expired draft changes in nothing but forgetting a deleted result |
| `CaptureTheorems.LeasesExclude` | src/mintflow/domain/capture/receipt.py:57-81 | Two attempts on one receipt start at least the first one's whole lease apart, whatever happens between them and whatever the clocks of other steps say |
| `CaptureTheorems.FinishedOnce` | src/mintflow/domain/capture/receipt.py:83-92 | With any number of workers, takeovers, stale attempts and account deletions of others, no step finishes a receipt that another step has finished before |
| `CaptureTheorems.StaleFinishChangesNothing` | src/mintflow/telegram/receipt_worker.py:291-326 | A finish leaves the tables exactly as they were if and only if its attempt is not the receipt's current one |
| `CaptureTheorems.OneResultPerReceipt` | src/mintflow/infrastructure/persistence/receipts.py:182-198 | Results of one receipt seen at any two moments of a run are the same row, even when retention deleted it in between |
| `CaptureTheorems.RemovedReceiptsRest` | src/mintflow/domain/capture/receipt.py:94-99 | Once its image is removed, a receipt keeps state and attempt for the rest of the run, no attempt finishes it, and its draft is closed |
| `CaptureImages.ImagesComeBackIff` | src/mintflow/infrastructure/persistence/telegram_retention.py:117-164 | In every reachable state the image of a removed receipt is there if and only if a worker stored it after the removal; and a store after the removal is always by an attempt that is over |
| `CaptureImages.StoreBringsBackIff` | src/mintflow/telegram/receipt_worker.py:244-253 | What a check of the attempt at the store would decide: a store brings its receipt's image back if and only if its attempt is no longer current and the receipt was removed, and touches no other receipt |
| `CaptureImages.RemovalLastsUnderFencing` | src/mintflow/telegram/receipt_worker.py:224-254 | In every run in which only current attempts store, a removed image stays removed |
| `CaptureImages.AStaleStoreBringsAnImageBack` | src/mintflow/telegram/receipt_worker.py:244-253 | A concrete run with the program's lease of two minutes and retention of thirty days: photo, claim, takeover, failure, cancellation, removal, and a store by the first worker thirty days late, that ends with the removed image stored |
| `CaptureTheorems.NoticedOnce` | src/mintflow/infrastructure/persistence/receipts.py:135-162 | A receipt claimed for the delay message is never claimed for it again in the run |
| `CaptureTheorems.UpdatesTakeEffectOnce` | src/mintflow/telegram/handler.py:88-101 | If one update id begins to change the tables in two steps, crashes and account deletions included, then a clean-up in between removed it from the ledger |
| `CaptureTheorems.ConfirmedIffSaved` | src/mintflow/application/capture/confirm_draft.py:62-113 | In every reachable state a draft is confirmed if and only if an expense of it exists; that expense is the only one and agrees with the draft on owner, receipt and source |
| `CaptureTheorems.OneExpensePerDraft` | src/mintflow/infrastructure/persistence/models.py:326 | Expenses of one draft seen at any two moments of a run are the same expense |
| `CaptureTheorems.SavedExpenseIsTheDraft` | src/mintflow/application/capture/confirm_draft.py:62-101 | An expense appears only by a confirmation, bot or web, of a draft in review; confirming changes none of the draft's values, and the expense is active and carries every one of them, with a positive amount |
| `CaptureTheorems.ConfirmingAgainReturnsTheSameExpense` | src/mintflow/application/capture/confirm_draft.py:103-113 | Once a draft has an expense, however it was confirmed, in the chat, by an update whose second commit came late or never or on the web, confirming it then or at any later moment writes nothing and returns that expense, or is refused while it is deleted |
| `CaptureTheorems.LaterConfirmationsReturnTheFirst` | src/mintflow/application/capture/confirm_draft.py:62-113 | In particular what the web's confirmation returned is what every later one returns |
| `CaptureTheorems.NextUpdateHealsTheConversation` | src/mintflow/telegram/capture_flow.py:605-617 | After any update that took effect, a conversation that points at a draft points at an open one, so a crash between the commits of a confirmation is repaired by the next update |
| `CaptureResults.DraftsHaveTheirOwnResults` | src/mintflow/telegram/receipt_worker.py:291-358 | In every reachable state the result a draft points at is stored, belongs to the draft's own receipt and has its owner |
| `CaptureResults.FinishingKeepsUserValues` | src/mintflow/domain/capture/draft.py:109-152 | No finish, current or stale, late or not, changes a field the user supplied, or the note |
| `CaptureRuns.DeletionKeepsCore` | src/mintflow/infrastructure/persistence/account_deletion.py:19-45 | Deleting an account keeps the invariants of the protocol, for everybody else's rows; a run goes on from there |
| `CaptureRuns.MovesOn` | src/mintflow/domain/capture/draft.py:68-75 | From any moment of a run to any later one, account deletions of others included, a user's drafts, receipts and expenses are all still there and have only moved on, and finished receipts got no further result |
| `CaptureSteps.StepIsSound` | src/mintflow/telegram/capture_flow.py:110-617 | Every enabled step keeps the invariants of all tables and changes rows only as allowed: drafts never go back, receipts finish once, expenses appear with their draft's confirmation |
| `CapturePointers.StepMoves` | src/mintflow/telegram/capture_flow.py:602-617 | Every step but unlinking keeps an open draft's conversation pointing at it, points at each new Telegram draft, moves no pointer to an old one, and never raises the number of answers left |
| `CaptureFlowProofs.RespondIsSound` | src/mintflow/telegram/capture_flow.py:134-206 | One bot turn from a consistent conversation and draft leaves a consistent pair, opens a draft only after closing the active one, and confirms only together with an expense |
| `CaptureFlowProofs.AnswersLowerRank` | src/mintflow/telegram/capture_flow.py:337-415 | One accepted answer strictly lowers the number of answers left; no other input raises it |
| `CaptureFlowProofs.RespondKeepsComplete` | src/mintflow/telegram/capture_flow.py:522-568 | A turn never puts a draft without amount or date in review |
| `CaptureFlowProofs.DeliverIsSound` | src/mintflow/telegram/capture_flow.py:208-245 | Delivering a result or a failure never fails on an open draft of the receipt, ends waiting, keeps the conversation's pointer, and leaves a conversation elsewhere untouched |
| `CaptureFlowProofs.ConfirmIsSound` | src/mintflow/domain/capture/expense.py:59-92 | A confirmation that saves changes nothing of the draft but its state and links, and saves an expense with all of its values |
| `DraftConfluence.ArrivalDoesNotMatter` | src/mintflow/domain/capture/draft.py:109-252 | For any list of user edits on an open draft and one result arriving anywhere among them, each of amount, date, merchant and category, with its provenance, is the user's last value, else the recognized one where it may fill, else what was there |
| `DraftConfluence.EditsSetLastValues` | src/mintflow/domain/capture/draft.py:162-252 | A run of edits, refused ones included, leaves exactly the last accepted value of each field, marked as the user's |
| `DraftConfluence.StateAfterArrival` | src/mintflow/domain/capture/draft.py:142-152 | A waiting draft ends in review if and only if amount and date were recognized or supplied before the result arrived; otherwise it collects |
| `DraftConfluence.StateDependsOnArrival` | src/mintflow/domain/capture/draft.py:142-152 | A concrete draft, edit and result for which the order of arrival decides the state |
| `DraftConfluence.CurrencyAnswerCommutesIff` | src/mintflow/telegram/capture_flow.py:367-398 | The bot's currency answer restates the amount it finds, so it commutes with the result's arrival if and only if recognition leaves the amount alone or the answer makes the same of the recognized total as of the amount before |
| `CaptureFlowProofs.CurrencyTextRestates` | src/mintflow/telegram/capture_flow.py:367-398 | A typed currency does to the draft's amount exactly that |
| `Amounts.ToMoneyKeepsTheNumber` | src/mintflow/telegram/parsing.py:45-52 | An accepted amount in minor units is exactly the number typed, in any of the supported precisions |
| `Amounts.MajorRoundTrip` | src/mintflow/telegram/capture_flow.py:753-754 | Major units read back in the same currency give the same money |
| `CaptureSession.Session.Handle` | src/mintflow/telegram/handler.py:88-101 | Handling an update that was processed before or fails leaves everything as it was; otherwise the update id commits with its effects, in one commit, or for a confirmation in two, of which the first is the state a crash leaves |
| `CaptureSession.Session.Dispatch` | src/mintflow/telegram/handler.py:103-171 | Row by row, the bot writes what the reply to this input prescribes for the locked conversation and its draft, and fails when that reply is an error |
| `CaptureSession.Session.LockConversation` | src/mintflow/telegram/capture_flow.py:602-603 | The stored conversation, created idle if missing |
| `CaptureSession.Session.GetActiveDraft` | src/mintflow/telegram/capture_flow.py:605-617 | The open draft the conversation points at; a pointer at anything else is dropped and the conversation is idle again |
| `CaptureSession.Session.AdvanceDraft` | src/mintflow/telegram/capture_flow.py:522-552 | The draft is stored and the next missing field asked for, or the draft put in review |
| `CaptureSession.Session.AnswerText` | src/mintflow/telegram/capture_flow.py:337-447 | The answer to the question asked is stored, and anything unusable changes nothing |
| `CaptureSession.Session.PressOnDraft` | src/mintflow/telegram/capture_flow.py:449-520 | Each button on the active draft's card has its effect, a confirmation with its own commit |
| `CaptureSession.Session.OpenDraft` | src/mintflow/telegram/capture_flow.py:275-315 | A new draft, with its receipt for a photo, becomes the active draft |
| `CaptureSession.Session.ConfirmCaptureDraft` | src/mintflow/application/capture/confirm_draft.py:62-113 | Denied, refused, raised or returned with the tables the confirmation step prescribes, and expense and draft committed together or nothing at all |
| `CaptureSession.Session.PressConfirm` | src/mintflow/telegram/capture_flow.py:570-592 | Expense and draft are committed before the conversation is cleared |
| `CaptureSession.Session.FinishConfirmation` | src/mintflow/telegram/capture_flow.py:584 | The second commit alone: the conversation is idle afterwards, whatever has become of the row since the first |
| `CaptureSession.Session.ClaimNext` | src/mintflow/infrastructure/persistence/receipts.py:102-133 | The oldest claimable receipt not locked elsewhere is leased to the new attempt and committed; none is claimed only if there is none |
| `CaptureSession.Session.SaveFinished` | src/mintflow/infrastructure/persistence/receipts.py:164-180 | The receipt is written if and only if the attempt is still its current one |
| `CaptureSession.Session.PutImage` | src/mintflow/infrastructure/persistence/receipts.py:211-230 | An image is kept unless its receipt is gone or has one, in a commit of its own, and without looking at the attempt |
| `CaptureSession.Session.FinishAttempt` | src/mintflow/telegram/receipt_worker.py:291-358 | Receipt, result, draft and conversation move on together as the finish step says, or not at all |
| `CaptureSession.Session.ClaimDelayNotices` | src/mintflow/infrastructure/persistence/receipts.py:135-162 | Exactly the overdue receipts of the batch are marked |
| `CaptureSession.Session.CollectNotices` | src/mintflow/telegram/receipt_worker.py:190-220 | After locking each claimed receipt's conversation in turn, exactly those whose draft still waits and is active are to be written about |
| `CaptureSession.Session.SendDelayNotices` | src/mintflow/telegram/receipt_worker.py:190-220 | Overdue receipts are marked and committed, and users are written to exactly about those whose draft still waits and is active |
| `ExpenseHistory.ListHistory` | src/mintflow/infrastructure/persistence/expenses.py:155-208 | A page is refused exactly outside 1 to 100; otherwise it holds the topmost matching active rows below the position, in descending order of date, creation and id, with a next position exactly when more follow |
| `ExpenseHistory.Select` | src/mintflow/infrastructure/persistence/expenses.py:155-200 | The conditions added one by one select exactly the owner's active rows that match the filter and lie below the position |
| `ExpenseHistory.TopRows` | src/mintflow/infrastructure/persistence/expenses.py:196-208 | The n greatest rows, in descending order, and nothing left out ranks above them |
| `ExpenseHistory.KeysDescend` | src/mintflow/application/capture/expense_history.py:29-46 | Whatever is inserted, deleted, restored or edited between pages, the keys shown strictly descend over the whole reading, so none repeats |
| `ExpenseHistory.EveryStayingRowIsShownOnce` | src/mintflow/infrastructure/persistence/expenses.py:155-208 | A reading that ends shows every row that stayed active and matching under an unchanged key exactly once |
| `ExpenseHistory.NotSkipped` | src/mintflow/infrastructure/persistence/expenses.py:155-208 | At every moment of a reading such a row is either shown already or below the start of the next page |
| `ExpenseHistory.UnchangedTableIsListedExactly` | src/mintflow/infrastructure/persistence/expenses.py:155-208 | Without changes the pages concatenate to the filtered, sorted list |
| `ExpenseHistory.SortedListIsUnique` | src/mintflow/infrastructure/persistence/expenses.py:196-200 | Only one strictly descending list holds given rows, so that list is determined by the table |
| `HistoryCursor.RoundTrip` | src/mintflow/application/capture/expense_history.py:69-103 | Every position survives encoding and decoding, whatever faithful parsers are used |
| `HistoryCursor.AcceptsExactlyTheIssued` | src/mintflow/application/capture/expense_history.py:82-103 | A string decodes to a position if and only if it is that position's own cursor, however lenient base64, JSON, ISO and UUID parsing are |
| `HistoryCursor.EncodeFits` | src/mintflow/application/capture/expense_history.py:22-79 | A cursor is 91 to 147 characters long, so within the limit of 256 |
| `HistoryCursor.Decode64OfEncode64` | src/mintflow/application/capture/expense_history.py:69-90 | Unpadded base64url (section 5 of RFC 4648), padded again, decodes to the encoded bytes, in ceil(4n/3) symbols |
| `CursorReaders.CanonicalReadersAreFaithful` | src/mintflow/application/capture/expense_history.py:82-103 | The parsers the cursor relies on exist: ones that read every day, offset timestamp, UUID and object as written |
| `CursorReaders.CursorsAreDistinct` | src/mintflow/application/capture/expense_history.py:69-79 | Two positions never share a cursor |
| `Digits.ReadOfWrite` | src/mintflow/application/capture/expense_history.py:69-79 | A number written with enough zero-padded digits reads back, in any base up to 16 |
| `ExpenseAudit.RecordsReplay` | src/mintflow/application/capture/expense_changes.py:55-108 | Whatever edits, deletions and restorations follow, by anyone, refused or without effect: an expense's records fold forward from the confirmed draft's values to the current row, and back from the row to exactly those values |
| `ExpenseAudit.RewindReplay` | src/mintflow/application/capture/expense_changes.py:55-108 | Folding any fitting log back undoes folding it forward |
| `ExpenseAudit.UndoRedo` | src/mintflow/application/capture/expense_changes.py:55-65 | A record holds enough to restore the state it replaced, with each field listed once |
| `ExpenseAudit.EditRecordFits` | src/mintflow/application/capture/edit_expense.py:101-122 | An edit's record is empty if and only if no field changed; otherwise it fits the old row and leads to the new one |
| `ExpenseAudit.WritesExactlyWhatChanged` | src/mintflow/application/capture/edit_expense.py:92-122 | A refused request writes nothing; one that writes changes one row, really, and appends one record about it under the caller |
| `ExpenseAudit.OnlyOwnersAreRecorded` | src/mintflow/application/capture/edit_expense.py:92-99 | However many requests anyone makes, every record names a stored expense and its owner |
| `ExpenseAudit.ApplySetsSupplied` | src/mintflow/application/capture/edit_expense.py:124-162 | An edit is accepted exactly when amount, date and category each are; it sets every supplied field and nothing else |
| `ExpenseAudit.DeletionsAlternate` | src/mintflow/application/capture/expense_deletion.py:42-92 | In a fitting log, a restoration lies between a deletion and any later edit or deletion, and a deletion between two restorations: deletions alternate and nothing is edited while deleted |
| `ExpenseAudit.ExpenseStore.EditExpense` | src/mintflow/application/capture/edit_expense.py:92-122 | Under the lock, row and record change together as one request says |
| `ExpenseAudit.ExpenseStore.SetDeleted` | src/mintflow/application/capture/expense_deletion.py:42-92 | Deleting or restoring writes row and record together, and nothing when it is already so |
| `ExpenseForm.ValidateEdit` | src/mintflow/web/expense_form.py:100-155 | The edit supplies a field if and only if the user changed it and it reads well, and blames every other changed field |
| `ExpenseForm.MoneyReadsTheNumber` | src/mintflow/web/expense_form.py:76-97 | An accepted amount is the number that the text stands for, so what the form reads as money never changes what was typed |
| `ExpenseForm.FormChangesOnlyWhatTheUserChanged` | src/mintflow/web/expense_form.py:100-155 | An accepted form, applied to any later state of the expense, sets what the user changed to what they typed, the amount to exactly that positive number in that currency, and keeps everything else as it is by then |
| `ExpenseForm.DisjointEditsCommute` | src/mintflow/application/capture/edit_expense.py:124-148 | Two edits of different fields, each acceptable now, are accepted in either order with the same values, amount and currency being one field |
| `ExpenseForm.DisjointFormsMerge` | src/mintflow/web/expense_form.py:100-155 | Two accepted forms rendered from one state that change different fields can be saved in either order on any later state, with the same final row values |
| `Calendar.DaysBeforeYearClosed` | src/mintflow/application/analytics/periods.py:22-39 | Day numbers follow the Gregorian leap rule: every fourth year, not every hundredth, but every four-hundredth |
| `Calendar.OrdinalOrders` | src/mintflow/application/analytics/periods.py:29-39 | Day numbers order dates as year, month and day do, and differ for different dates |
| `Calendar.FromOrdinalOfOrdinal` | src/mintflow/application/analytics/periods.py:81-96 | Dates and positive day numbers convert back and forth |
| `Periods.GetChartBuckets` | src/mintflow/application/analytics/periods.py:81-96 | The layout computed for any valid period: adjacent buckets covering it, each valid and within one calendar month, at most 31 daily or 13 monthly ones |
| `Periods.LayoutPartitions` | src/mintflow/application/analytics/periods.py:81-96 | A day is in the period if and only if it is in exactly one bucket |
| `Periods.AtMostThirteenMonths` | src/mintflow/application/analytics/periods.py:81-96 | A period of at most 366 days, leap years included, meets at most 13 calendar months |
| `Periods.WindowsAreComparable` | src/mintflow/application/analytics/periods.py:99-131 | The current window is the period up to today and the earlier one comparable: the month before, clipped, or the same number of days just before; there is none if and only if the period has not begun or the earlier window would start before 2000 |
| `Aggregates.GroupingConserves` | src/mintflow/infrastructure/persistence/analytics.py:47-136 | Any additive figure is the same over the groups of a GROUP BY as over its rows, whatever the key |
| `Dashboard.BucketTotals` | src/mintflow/application/analytics/dashboard.py:189-204 | Every bucket of the period's layout holds the total and the count of exactly its own days |
| `Dashboard.BucketsConserve` | src/mintflow/application/analytics/dashboard.py:189-204 | Buckets together hold the single currency's total and count |
| `Dashboard.TopMerchantsConserve` | src/mintflow/application/analytics/dashboard.py:222-251 | Merchants shown and "Other" together hold all totals and counts, unnamed merchants included |
| `Dashboard.TopMerchantsRank` | src/mintflow/application/analytics/dashboard.py:222-251 | At most five named merchants are shown, ranked; none left to "Other" ranks above one of them, and all named ones are shown when there are fewer than five |
| `Dashboard.SharesAddUp` | src/mintflow/application/analytics/dashboard.py:163-167 | The half-even shares of all groups add up to 10000 basis points, give or take half a point each |
| `Dashboard.ShareOfAPart` | src/mintflow/application/analytics/dashboard.py:163-167 | The share of a part of a whole is between 0 and 10000 basis points |
| `Dashboard.DashboardAddsUp` | src/mintflow/application/analytics/dashboard.py:450-483 | For one currency, buckets, categories, merchants with "Other" and the currency total all agree, in amounts and in counts |
| `Rounding.HalfEven` | src/mintflow/application/rates/rates.py:51-61 | The nearest integer, and the even one of two equally near |
| `Rounding.Round28IsMonotone` | src/mintflow/application/rates/rates.py:51-61 | Rounding to 28 significant digits never reorders two numbers, within or across powers of ten |
| `Rounding.Round28Error` | src/mintflow/application/rates/rates.py:51-61 | Rounding to 28 significant digits moves a number by at most one part in 2 * 10^27 |
| `Rates.ConvertNeedsRates` | src/mintflow/application/rates/rates.py:46-61 | There is no converted amount if and only if a rate is missing, and a currency converts to itself unchanged |
| `Rates.ConvertError` | src/mintflow/application/rates/rates.py:51-61 | A converted amount is within half a minor unit and four rounding errors, relatively, of the exact rational value |
| `Rates.ConvertIsMonotone` | src/mintflow/application/rates/rates.py:51-61 | Through all its roundings conversion keeps order, and what fits the context stays fitting below |
| `Rates.DefaultContextIsCorrect` | src/mintflow/application/rates/rates.py:51-61 | The default decimal context rounds in order and within one part in 2 * 10^27 |
| `RateRefresh.Refresh` | src/mintflow/application/rates/rates.py:114-130 | For every currency the first quote of the first source that publishes it is chosen; failed sources are reported and the others still used |
| `RateRefresh.EarlierSourceWins` | src/mintflow/application/rates/rates.py:114-130 | A source's quote is chosen if no earlier source publishes that currency, whatever later ones say |
| `ConvertedDashboard.DecimalSnapshots` | src/mintflow/application/analytics/dashboard.py:254-277 | Conversion at any stored rates keeps order and is within half a unit and a drift of one part in 5 * 10^26 |
| `ConvertedDashboard.BreakdownsAgree` | src/mintflow/application/analytics/dashboard.py:485-535 | The converted totals of any two groupings of the same expenses differ by at most half a unit per converted group of either, plus the drift |
| `ConvertedDashboard.CountsAgree` | src/mintflow/application/analytics/dashboard.py:485-535 | Every converted breakdown counts each convertible expense once |
| `ConvertedDashboard.Converter.Convert` | src/mintflow/application/analytics/dashboard.py:254-277 | The amount at the snapshot's rates, and the rates used remembered exactly when a rate was needed |
| `ConvertedDashboard.ConvertedLines` | src/mintflow/application/analytics/dashboard.py:301-331 | Each group is converted once and added to its key's line, keys in the order met; it fails exactly when some conversion does |
| `ConvertedDashboard.LinesConserve` | src/mintflow/application/analytics/dashboard.py:301-331 | The lines together hold the converted sum and the count of all groups |
| `ConvertedDashboard.ConvertedLargest` | src/mintflow/application/analytics/dashboard.py:537-565 | It succeeds if and only if each currency's largest expense converts, and then finds the greatest candidate among them, or none exactly when no currency has one |
| `ConvertedDashboard.ChampionIsLargest` | src/mintflow/application/analytics/dashboard.py:537-565 | No convertible expense converts to more than the champion; one that ties has a candidate of its own currency with the same converted amount that is not later by date, creation and id |
| `ConvertedChampion.DocumentedIsFoundIff` | src/mintflow/application/analytics/dashboard.py:537-565 | Over the rows alone: the documented largest expense, greatest of all convertible ones by converted amount, date, creation and id, is the one reported if and only if no expense of its own currency is larger; the converted amount reported is right in any case |
| `ConvertedChampion.DocumentedExists` | src/mintflow/application/analytics/dashboard.py:537-565 | If some expense has a rate and all that have one convert, there is such a largest expense |
| `ConvertedChampion.ChampionIsDocumentedIff` | src/mintflow/application/analytics/dashboard.py:544-565 | So the one reported is the documented one if and only if no later expense that is smaller than another of its currency rounds to the amount reported |
| `ConvertedChampion.OverlookedIsForeign` | src/mintflow/application/analytics/dashboard.py:537-565 | Such an expense is never in the target currency: only rounding can hide one |
| `ConvertedChampion.TheLaterOfTwoCanBeOverlooked` | src/mintflow/application/analytics/dashboard.py:544-565 | A concrete input, 1.00 and the day after 0.99 dollars at three dollars to the euro in 28-digit decimals: both become 33 cents, the earlier is reported and the later is the documented one |
| `ConvertedBuckets.ConvertBuckets` | src/mintflow/application/analytics/dashboard.py:280-298 | It succeeds if and only if every non-empty bucket of every currency converts, and then each of them has been converted once and every line holds its bucket's sum and count |
| `ConvertedBuckets.BucketGroupsGroup` | src/mintflow/application/analytics/dashboard.py:280-298 | Those currency-and-bucket totals group the period's expenses like any GROUP BY |
| `ConvertedBuckets.ChartAgrees` | src/mintflow/application/analytics/dashboard.py:485-535 | For any expenses of the period, those without a rate being left out before conversion: the converted chart and the converted grand total differ by at most half a unit per conversion plus the drift, and both count each expense with a rate once |
| `AccountDeletion.StatementLeaves` | src/mintflow/infrastructure/persistence/account_deletion.py:19-45 | Each of the twelve statements, with its cascades, leaves exactly the rows stated for that point of the list |
| `AccountDeletion.ChecksHold` | src/mintflow/infrastructure/persistence/account_deletion.py:19-45 | The RESTRICT references hold after each statement if and only if no row of anyone else refers to the drafts and expenses, from the third statement on, and receipts, from the fifth on, that went |
| `AccountDeletion.Repository.DeleteAccount` | src/mintflow/infrastructure/persistence/account_deletion.py:59-105 | False and nothing for an unknown user; otherwise everything the list deletes plus tombstone and audit record, if and only if nobody else's row stands in the way, and else nothing |
| `AccountDeletion.DeletionLeavesNoTrace` | src/mintflow/infrastructure/persistence/account_deletion.py:70-105 | Afterwards no row refers to the user, or to a receipt, expense or address that was theirs, except the tombstone |
| `AccountDeletion.AgreementFrees` | src/mintflow/infrastructure/persistence/account_deletion.py:19-45 | When linked rows share their owner, deletion is never refused |
| `AccountDeletion.OthersAreUntouched` | src/mintflow/infrastructure/persistence/account_deletion.py:19-105 | When also records and results share it, what remains of every table is exactly everybody else's rows, unchanged |
| `AccountDeletion.OthersKeepTheirLogins` | src/mintflow/infrastructure/persistence/account_deletion.py:34-39 | Since addresses are unique, nobody else loses a login challenge, nor does an address that is nobody's |
| `AccountOwners.DeletionIsAlwaysPossible` | src/mintflow/infrastructure/persistence/account_deletion.py:19-45 | In every reachable state of the capture protocol every user can be deleted |
| `AccountOwners.DeletionTakesOnlyTheUsersRows` | src/mintflow/infrastructure/persistence/account_deletion.py:19-105 | And deletion removes exactly the user's own capture rows and images, every other one staying as it was, which leaves the tables the protocol goes on with |
| `AccountOwners.RunsGoOn` | src/mintflow/infrastructure/persistence/account_deletion.py:59-105 | What a deletion leaves in the database begins a run, so everything that holds in all runs holds after deletions too |
| `AccountRetention.DeletionKeepsConsistency` | src/mintflow/infrastructure/persistence/account_deletion.py:59-105 | Foreign keys, owner agreement and unique addresses survive any deletion |
| `AccountRetention.FirstOnes` | src/mintflow/infrastructure/persistence/authentication_retention.py:115-130 | Of the ids given, the ones longest ago, in order of time and id, exactly as many as there are or the batch allows |
| `AccountRetention.Cleanup.DeleteAgain` | src/mintflow/application/authentication/retention.py:117-134 | Every listed revived account is deleted again, each exactly once |
| `AccountRetention.Cleanup.DeleteRevived` | src/mintflow/application/authentication/retention.py:117-126 | The accounts deleted longest ago of those that exist again are deleted again, as many as there are or the batch allows |
| `AccountRetention.Cleanup.PruneTombstones` | src/mintflow/infrastructure/persistence/authentication_retention.py:131-152 | Exactly the oldest tombstones past the cutoff whose user does not exist and that nobody has locked go, as many as there are or the batch allows, and that is the count |
| `AccountRetention.Cleanup.Execute` | src/mintflow/application/authentication/retention.py:117-134 | One run deletes exactly those accounts again, then prunes exactly the oldest prunable tombstones, and keeps the database consistent |
| `AccountRetention.CleanupFinishes` | src/mintflow/application/authentication/retention.py:117-134 | After any sequence of runs the revived accounts are fewer by exactly the sum of the batches, none being left if and only if that sum suffices; no other user is deleted and no tombstone of an existing user is pruned |
| `AccountRetention.CleanupReachesZero` | src/mintflow/application/authentication/retention.py:117-134 | So at most as many runs as there are revived accounts leave none |
| `TelegramLinks.AtMostOneLink` | src/mintflow/infrastructure/persistence/models.py:471-489 | In every run each user and each Telegram account has at most one active connection |
| `TelegramLinks.EveryLinkHasItsOwnCeremony` | src/mintflow/infrastructure/persistence/telegram_links.py:120-235 | Every connection ever made comes from exactly one challenge, issued to its user, claimed by its Telegram account and confirmed by the issuing session before expiry, less than five minutes after issue |
| `TelegramLinks.LinksAppearByConfirmation` | src/mintflow/infrastructure/persistence/telegram_links.py:178-235 | A connection appears by a confirmation only, with the caller's own, valid and unrevoked session |
| `TelegramLinks.ChallengesServeOnce` | src/mintflow/infrastructure/persistence/telegram_links.py:120-235 | A claim is never overwritten, and a confirmed challenge never changes again |
| `TelegramLinks.StepKeeps` | src/mintflow/infrastructure/persistence/telegram_links.py:97-283 | Issue, claim, confirm, unlink, revocation, retention and account deletion, which takes linked connections too, each keep the ceremony invariant |
| `TelegramLinks.LinksEndByUnlinkOrDeletion` | src/mintflow/infrastructure/persistence/telegram_links.py:257-283 | An active connection ends only by its user's own unlinking or account deletion, and then the user is not linked and has no conversation left |
| `TelegramLinks.LinkRepository.CreateChallenge` | src/mintflow/infrastructure/persistence/telegram_links.py:97-118 | A challenge is inserted if and only if the constraints allow it |
| `TelegramLinks.LinkRepository.ClaimByToken` | src/mintflow/infrastructure/persistence/telegram_links.py:120-164 | The open, unclaimed challenge of this token is claimed if there is one; otherwise no challenge could have been |
| `TelegramLinks.LinkRepository.ConfirmChallenge` | src/mintflow/infrastructure/persistence/telegram_links.py:178-235 | A connection is returned and stored if and only if challenge, session and uniqueness allow it, and a conflict undoes everything |
| `TelegramLinks.LinkRepository.UnlinkUser` | src/mintflow/infrastructure/persistence/telegram_links.py:257-283 | Connection and conversation end together and the user is not linked afterwards, unless the clock lies before the moment of linking, which fails and changes nothing |
| `RateLimit.WindowContains` | src/mintflow/application/authentication/rate_limit.py:32-38 | The window computed from hour and minute contains the instant and starts at a whole quarter of an hour |
| `RateLimit.RateLimiter.ReserveSlot` | src/mintflow/infrastructure/persistence/authentication_rate_limits.py:12-28 | The bucket is inserted at one, or incremented while below the limit; allowed exactly when one of the two happened |
| `RateLimit.RateLimiter.DeleteBuckets` | src/mintflow/infrastructure/persistence/authentication_retention.py:65-92 | Exactly the stale buckets of the batch go, and they are counted |
| `RateLimit.AtMostTheLimit` | src/mintflow/infrastructure/persistence/authentication_rate_limits.py:12-28 | With clean-ups anywhere and a clock that does not run back, at most the limit is allowed per key and window, and one if the limit is zero |
| `RateLimit.LimitZeroLetsOneThrough` | src/mintflow/infrastructure/persistence/authentication_rate_limits.py:12-28 | A concrete run in which a limit of zero, which none of the program's own limits is, lets one through, and no second one |
| `RateLimit.SpanIsBounded` | src/mintflow/application/authentication/rate_limit.py:32-67 | Any span of time admits at most the limit for each window it meets |
| `RateLimit.FifteenMinutesAdmitTwiceTheLimit` | src/mintflow/application/authentication/rate_limit.py:32-67 | Any fifteen minutes admit at most twice the dimension's limit |
| `Recognition.Leader` | src/mintflow/application/receipts/recognition.py:103-116 | Returns the value whose best confidence reaches the minimum and leads every different value's best by the margin, and none if and only if there is no such value |
| `Recognition.LeaderIsUnique` | src/mintflow/application/receipts/recognition.py:103-116 | At most one value can lead |
| `Recognition.OrderDoesNotMatter` | src/mintflow/application/receipts/recognition.py:103-116 | Leading depends on which confidences are proposed for which values, not on their order or repetition |
| `Recognition.SelectMerchant` | src/mintflow/application/receipts/recognition.py:119-127 | The leader among merchant names that read well |
| `Recognition.SelectDate` | src/mintflow/application/receipts/recognition.py:130-147 | The leader among candidates with exactly one plausible reading |
| `Recognition.SelectCurrency` | src/mintflow/application/receipts/recognition.py:158-168 | The leader among supported currencies not shown only by an ambiguous symbol |
| `Recognition.SelectTotal` | src/mintflow/application/receipts/recognition.py:171-191 | No total without a trusted currency; else the leader among positive labelled totals, if it is an exact amount of that currency |
| `Recognition.SelectValues` | src/mintflow/application/receipts/recognition.py:194-202 | Merchant, date and total are each the selection of their own candidates |
| `Recognition.SelectionIgnoresOrder` | src/mintflow/application/receipts/recognition.py:194-202 | Two outputs that list the same candidates in any order keep the same values |
| `Recognition.KeptWasProposed` | src/mintflow/application/receipts/recognition.py:119-191 | Whatever is kept was proposed with enough confidence: a name or date by a candidate that reads as it, a total by one labelled as total in a currency that a trusted candidate names |
| `Recognition.KeptTotalIsExact` | src/mintflow/application/receipts/recognition.py:171-191 | A kept total is a positive, exact number of minor units within range |

## Left out

- Text and locale: parsing of typed amounts, dates, names, JSON, ISO timestamps and UUIDs is an arbitrary function; ASCII stands for the characters of category keys; message wording, keyboards, routes, cookies, templates and charts as drawings are absent.
- Typed amounts with more than 28 significant digits: `Decimal.scaleb` rounds them in `to_money`; here a typed amount is exact.
- The exponent limits of `Decimal`: only the 28 digits of its context and the failing final quantize are modelled.
- Floating point: confidences are real numbers, so a margin that differs by less than a rounding error from 0.15 is judged exactly here.
- SQL: a statement is a function of tables; locks and conditional updates appear as atomic steps, `SKIP LOCKED` and batch limits as a free choice of rows. Oldest-first order is kept where a result depends on it, in `CaptureSession.Session.ClaimNext` and `AccountRetention`.
- The web's draft handlers read without a lock and write back a whole draft; each is one atomic request here, so a lost update between two of them, or between one and the bot, is not visible. They are steps, not methods.
- Sending messages: a message after a commit may fail or not, and nothing in the tables depends on it, so only who is to be written to appears.
- Threads, time-outs and downloads during recognition: one outcome, values or failure. A vanished receipt or an unreadable image ends like the failure or the stale attempt it leads to.
- Expense edits and login are not steps of capture runs; `ExpenseAudit` starts from a confirmed draft.
- Account deletion ends one run and begins the next. Results about two moments (such as `CaptureTheorems.FinishedOnce`) hold across the deletion of other accounts; of the rows of a deleted account nothing is said afterwards.
- CaptureTheorems.UpdatesTakeEffectOnce: only until retention prunes the update id, which the program does seven days later; that Telegram redelivers no later than that is its own promise.
- CaptureTheorems.NextUpdateHealsTheConversation: says nothing of an update that is rolled back, because that one leaves the conversation as the crash left it.
- CaptureTheorems.ThreeAnswersReachReview: when a user unlinks, the abandoned draft is no longer asked about and can stay collecting, so the second half speaks of drafts their conversation points at.
- ConvertedBuckets.ConvertBuckets: does not say which conversion failed when one does, nor that the remaining ones are then not attempted.
- RateRefresh.Refresh: storing what was chosen over older rates is a caller's map update and is left out.
- AccountDeletion.OthersAreUntouched: assumes that change records and results share their owner with what they refer to; `CaptureResults.DraftsHaveTheirOwnResults` shows that for results in every run and `ExpenseAudit.OnlyOwnersAreRecorded` for records, separately.
- AccountRetention.Cleanup.Execute: how a restored backup brings rows back is not modelled; it starts from any consistent database whose tombstones may name existing users. The other retention cutoffs (sessions, challenges, audit records) add easy members only.
- TelegramLinks.LinkRepository.ClaimByToken: tokens are opaque numbers; hashing, display names and audit records of linking are absent.
- RateLimit.RateLimiter.ReserveSlot: keys are opaque instead of HMAC digests.
- The order of group-by results, category ranking, comparison deltas and percentages, and the assembly of the dashboard object: they follow from the totals proved here.
- Naive timestamps, `datetime.fold` and time-zone data: rejected or resolved before the modelled code runs.
- The table of categories and its foreign key, login challenges beyond their deletion, configuration, migrations and deployment.
