# Core banking: ledger, holds and transfers

A model of the money-moving core of the repository, `apps/core/internal/corebanking`: accounts
with cached balances, an append-only journal, holds and liens, transfers that are recorded,
settled, completed, requeried and reversed, and the exactly-once protocol keyed by idempotency
key, provider event and provider reference. Every statement of the repository filters on one
institution, so the model keeps one institution's rows and drops that column.

## How it is put together

- `Types`, `Policy`, `Ledger`, `Transfers`, `Controls`, `Steps` say what each transaction locks
  and what it decides. `Steps.Exec` gives, for a database, a request and what comes from outside
  (clock, fresh ids, the rows that unguarded lookups picked), the locks in the order taken and
  a reply: the statements to commit, as one `Change`, or an error. `Ledger.Apply` executes a
  `Change`. An error commits nothing.
- `Store.Repository` is the repository in the source's own form: a class whose tables are
  reassigned statement by statement, with the posting loop, status variables reassigned branch by
  branch, and `WithTx` committing or putting everything back. Every method is proved against the
  functions above.
- `Effects` says in the rows' own fields what the account controls ask and what a payment, a hold
  and its end do to the balances. Measured by it, `Recording`, `Finishing`, `Reversals`, `Reviews`
  and `Accounts` state for every transaction exactly when it goes through and everything it
  leaves behind, `Answers` and `Deliveries` what each answer and event of a provider comes to.
- `Invariant` states what holds of the tables, `Preservation` and `Decisions` that every
  transaction keeps it. `Runs`, `ExactlyOnce`, `Replays`, `Funds`, `Deficits`, `Phases`, `History`
  draw the consequences; `Guards` says what a caller can check before a call.
- `Isolation`, `Confinement`, `Interleaving` model concurrent transactions that lock and read one
  resource at a time, and show that any interleaving amounts to the committed ones run one at a
  time in commit order. `LockOrder` is about the order of the row locks.
- `Provider` and `Inbound` are the service around it: provider answers, requeries, inbound events.
- `Paging` is the cursor, `HistoryPages` an account's history read with it. `Limits` shows where
  guarantees stop, by theorem and by explicit run.

## What callers are relied on for

The theorems about runs ask of each request (`Steps.Admissible`, `Funds.ClearingInternal`):

- the direction is not `reversal` and no reversal link is set, except in `ReverseTransfer`, which
  sets its own; completions are outbound; reviews are inbound and `failed` or `pending`; status
  changes are the four moves the service offers. The service fixes all of these itself;
- a request that would open a hold names a credit-normal account, as `CreateAccount` makes them.
  `Limits` proves that this is exactly what the available/ledger equation needs;
- the clearing account of a non-reversal inbound request is an internal account
  (`service.go:198`, `service.go:656`, `service_external.go:451`). The theorems in `Funds` and
  `Deficits` that speak of available funds, the post-no-debit theorems, and everything in
  `Interleaving`, whose transactions begin with that lookup done, ask for it;
- ids generated by a transaction are not in use.

Amounts need no precondition: the tables' CHECK constraints reject anything not positive.

## Where the code gives less than one might expect

- An account that must not be overdrawn gets below zero if and only if a reversal debits it by
  more than it has available (`Deficits.BelowZeroIff`, `Deficits.EverBelowIff`). The deficit check
  of a reversal looks at the ledger, not at what holds leave available, and only at the account
  the transfer was recorded on. So such a step is flagged exactly when the transfer undone was
  inbound and its amount exceeds the ledger (`Deficits.BelowZeroFlaggedIff`), and a ledger falls
  below zero unflagged when an outbound transfer is undone or when a hold is consumed in a deficit
  (`Deficits.OverdraftFlaggedIff`). One run to each: `Limits.UnflaggedOverdraft`,
  `Limits.UndoneWhileHeld`.
- In a deficit, debits do not stop altogether: a hold placed before can still be completed. Apart
  from that and from reversals no debit, hold or lien goes through (`Deficits.DebitInDeficitIff`).
- A completion puts the transfer up for manual review exactly when the code takes the answer for
  unknown and its event is new (`Provider.ReviewedIff`). An answer whose status is
  `provider_unknown` beside another, non-blank provider status is refused and rolled back: the
  money stays held, but the transfer keeps its labels and nobody is told to review it
  (`Provider.GarbledRefused`; a run to it is `Limits.GarbledNotReviewed`).
- Completing a hold on a debit-normal account breaks the available/ledger equation, and only there
  (`Limits.ConsumedHoldReconcilesIff`, `Limits.DebitNormalHoldBreaks`).
- Paging with a time but no id reads everything exactly when no full page ends inside a tie
  (`Paging.TimePagesCoverIff`, `Paging.TiedRowLost`).

## Model

| member | source | states |
|---|---|---|
| `Runs.BalancesReconcile` | apps/core/internal/corebanking/sql_repository_integration_test.go:608-658 | in every state reachable from empty books each ledger is the signed sum of the account's postings, and available is that less its active transfer holds and liens |
| `Runs.TrialBalance` | apps/core/internal/corebanking/sql_ledger_repository.go:44-76 | debit-normal and credit-normal ledgers have the same total |
| `Runs.RunKeepsInv` | apps/core/internal/corebanking/transaction.go:19-43 | the invariant over accounts, money, rows, keys, holds, liens, events and reversals survives any run |
| `Runs.FinalForever` | apps/core/internal/corebanking/sql_transfer_repository.go:656-725 | once a transfer is succeeded or failed, its row, its hold and its journal are the same in every later state of the modelled transactions |
| `Runs.RunEvolves` | apps/core/internal/corebanking/sql_transfer_repository.go:697-725 | over a run journals, keys, events and reversals are only added, a transfer keeps who, how much and which way, an account only changes status |
| `Runs.StatusColumnsAgree` | apps/core/internal/corebanking/policy.go:59-68 | in every reachable state a transfer's status, ledger, reconciliation and provider status agree: matched exactly when posted without deficit, unknown at the provider never posted and always up for review, deficits only on reversals |
| `Preservation.ApplyKeepsInv` | apps/core/internal/corebanking/sql_transfer_repository.go:400-466 | whatever vetted change commits, the invariant survives |
| `Preservation.PostAllEffect` | apps/core/internal/corebanking/sql_ledger_repository.go:80-95 | posting moves each ledger by the signed sum of its postings, and available by the same unless its hold is being consumed |
| `Preservation.MovedMoney` | apps/core/internal/corebanking/sql_holds.go:13-61 | after posting together with a hold action the balances still reconcile if and only if a consumed hold is matched by an equal fall of its account's ledger |
| `Preservation.OutboundEffect` | apps/core/internal/corebanking/sql_ledger_repository.go:80-87 | an outbound posting lowers its account's ledger by the amount if and only if the account is credit-normal |
| `Decisions.CommittedOk` | apps/core/internal/corebanking/sql_transfer_repository.go:282-466 | every admissible transaction writes only changes that keep the invariant |
| `Decisions.StepKeepsInv` | apps/core/internal/corebanking/transaction.go:19-43 | every admissible transaction, committed or rolled back, keeps the invariant |
| `Decisions.SettleOk` | apps/core/internal/corebanking/sql_transfer_repository.go:623-737 | settlement advances the pending transfer it was given, freeing or consuming its hold to match, or writes nothing |
| `Decisions.CompleteOk` | apps/core/internal/corebanking/sql_transfer_repository.go:794-932 | completion advances the pending outbound transfer named, or writes nothing |
| `Decisions.RequeryOk` | apps/core/internal/corebanking/sql_transfer_repository.go:101-172 | a requery advances the pending transfer named, or writes nothing |
| `Decisions.ReverseOk` | apps/core/internal/corebanking/sql_transfer_repository.go:178-260 | a reversal that commits replays the one reversal on record or inserts one row linked to the transfer named |
| `Decisions.CounterpartyIs` | apps/core/internal/corebanking/sql_transfer_repository.go:262-280 | a posted transfer has exactly one counterparty, the other side of its journal |
| `Effects.ControlsAllowIff` | apps/core/internal/corebanking/policy.go:17-47 | the controls refuse a frozen or closed customer account on either side, a customer's own outbound request under post-no-debit, and nothing else |
| `Effects.BookingPays` | apps/core/internal/corebanking/sql_ledger_repository.go:31-95 | posting a booked journal moves each balance by its side of it, spares the available balance of a payer whose hold pays, and marks both accounts with the journal |
| `Recording.RecordsIff` | apps/core/internal/corebanking/sql_transfer_repository.go:282-466 | a request inserts a new transfer if and only if key and event are unused, no transfer of its reference was found, its two accounts differ, exist and are in use, the named customer is not paying out under post-no-debit, the amount is positive, the statuses are known words, and it is not short of money while insisting on it |
| `Recording.RecordLeaves` | apps/core/internal/corebanking/sql_transfer_repository.go:411-460 | it then leaves exactly its row, its key, its event and, by its status, a journal that pays, a hold, or no trace in the money |
| `Recording.InsufficientIff` | apps/core/internal/corebanking/sql_transfer_repository.go:365-375 | a request that nothing else stands in the way of is refused as insufficient if and only if it is short of money and insists on it |
| `Recording.PostNoDebitTakesCredit` | apps/core/internal/corebanking/policy.go:31-34 | an inbound request that succeeded raises ledger and available of an account under post-no-debit by the amount |
| `Finishing.SettlementEnds` | apps/core/internal/corebanking/sql_transfer_repository.go:623-737 | a recorded request makes a pending transfer of either direction succeed or fail if and only if its key is unused, it found it by reference, matches it, says so plainly and, to succeed, the controls allow it; it then leaves exactly the ended row, its event and its money |
| `Finishing.CompletionEnds` | apps/core/internal/corebanking/sql_transfer_repository.go:794-932 | a completion makes a pending outbound transfer succeed or fail if and only if it names it, its provider and payload, its statuses come to that, its event is new and, to succeed, the controls allow it; it then leaves exactly that |
| `Finishing.CompletionElse` | apps/core/internal/corebanking/sql_transfer_repository.go:876-882 | a completion that says to wait relabels the row, and one that says neither changes nothing |
| `Finishing.LateCompletionAnswered` | apps/core/internal/corebanking/sql_transfer_repository.go:808-819 | a completion of a final transfer is answered with it if it is about it, and refused otherwise |
| `Finishing.LateRequeryAnswered` | apps/core/internal/corebanking/sql_transfer_repository.go:125-149 | so is a requery |
| `Finishing.RequeryEndsIff` | apps/core/internal/corebanking/sql_transfer_repository.go:101-172 | a requery makes a pending transfer succeed or fail if and only if it is external and open to it, the request is about it and the outcome is said |
| `Finishing.InboundRequeryWaits` | apps/core/internal/corebanking/sql_transfer_repository.go:739-792 | a requery that leaves an inbound transfer pending relabels its row and changes nothing else |
| `Finishing.PendingCreditArrives` | apps/core/internal/corebanking/sql_transfer_repository.go:658-685 | a pending inbound transfer settled as succeeded raises its account's ledger and available by the amount |
| `Answers.AnswerFailsIff` | apps/core/internal/corebanking/sql_transfer_repository.go:872-875 | whatever the provider answers, a completion fails the transfer and frees its money if and only if the answer says failed or leaves the status blank, with a provider status blank or known, and its event is new |
| `Answers.AnswerSucceedsIff` | apps/core/internal/corebanking/sql_transfer_repository.go:850-871 | it succeeds, paid from the hold, if and only if the answer says succeeded, with a provider status blank or known, its event is new and the controls allow it |
| `Answers.NoTransferFails` | apps/core/internal/corebanking/service_external.go:219-226 | a provider that refuses, is unavailable or returns nothing fails the transfer and frees its money |
| `Answers.SendsIff` | apps/core/internal/corebanking/service_external.go:322-341 | a requery sends the repository something if and only if the provider answered about this transfer without contradicting itself, or the outcome is unknown; another error ends it |
| `Answers.SentFinalIff` | apps/core/internal/corebanking/service_external.go:680-709 | what it sends is final only if the provider said so |
| `Answers.SentRepeats` | apps/core/internal/corebanking/service_external.go:715-733 | apart from the statuses it repeats the transfer's own fields, with the provider's reason or one for an unknown or failed outcome |
| `Answers.RefusedRequeryStill` | apps/core/internal/corebanking/service_external.go:322-331 | a requery the provider refuses changes nothing |
| `Answers.RequeryAnswerEnds` | apps/core/internal/corebanking/service_external.go:322-345 | a requery of an open transfer makes it succeed or fail if and only if the provider answered so about it and, to succeed, the controls allow it |
| `Answers.RequeryFailureFrees` | apps/core/internal/corebanking/sql_transfer_repository.go:872-875 | a failed answer to a requery frees an outbound transfer's money |
| `Reversals.ReversalLeaves` | apps/core/internal/corebanking/sql_transfer_repository.go:208-258 | a reversal that goes through leaves exactly a succeeded row linked to the original, on record as its reversal, and a journal that pays the amount back |
| `Reversals.ReversalAnswersIff` | apps/core/internal/corebanking/sql_transfer_repository.go:188-207 | a reversal request is answered if and only if it goes through or the transfer was reversed under this very key |
| `Reviews.ReviewIsRecorded` | apps/core/internal/corebanking/sql_transfer_repository.go:468-565 | a review is recorded if and only if it is complete, its key unused, its account known and the event it reserves new; it leaves an unposted row for manual review and the event linked to it |
| `Reviews.ReviewReplays` | apps/core/internal/corebanking/sql_transfer_repository.go:484-510 | a review whose event or key is on record gets that transfer for the same payload, a conflict for another |
| `Deliveries.DeliveryRecorded` | apps/core/internal/corebanking/service_external.go:237-291 | an event not seen before, for an account in use, is recorded with its status and credits the account exactly if it succeeded |
| `Deliveries.BlockedGoesToReview` | apps/core/internal/corebanking/service_external.go:270-272 | an event for a frozen or closed account goes to review and on record, and moves no money |
| `Deliveries.UnknownGoesToReview` | apps/core/internal/corebanking/service_external.go:262-265 | so does an event for an unknown account, on the settlement account |
| `Deliveries.ConflictGoesToReview` | apps/core/internal/corebanking/service_external.go:274-277 | after a conflict the delivery goes to review beside the event on record |
| `Deliveries.BlockedMeanwhileIff` | apps/core/internal/corebanking/service_external.go:278-283 | refused otherwise, it goes to review exactly if the account was blocked meanwhile |
| `Accounts.StatusIsSet` | apps/core/internal/corebanking/sql_account_controls.go:11-54 | a status request succeeds if and only if the account exists and its status may change; it then has the status asked for and nothing else changed, otherwise nothing changed |
| `Accounts.ServiceMoves` | apps/core/internal/corebanking/service_account_controls.go:10-68 | freezing an active account freezes it, and so on for the four moves |
| `Accounts.LienIsPlaced` | apps/core/internal/corebanking/sql_account_controls.go:56-132 | a lien is placed if and only if the account is a customer's, not closed, of that currency, has the positive amount available, and no active lien carries the reference; it is then on record and its amount taken |
| `Accounts.LienReplays` | apps/core/internal/corebanking/sql_account_controls.go:69-83 | an active lien's reference is answered with it for the same request and refused for another |
| `Accounts.LienTooLarge` | apps/core/internal/corebanking/sql_account_controls.go:87-89 | a lien is refused as insufficient exactly if it is larger than what is available |
| `Accounts.LienIsReleased` | apps/core/internal/corebanking/sql_account_controls.go:134-163 | a release succeeds if and only if the account has that lien; an active one gives its amount back |
| `Accounts.AccountIsOpened` | apps/core/internal/corebanking/sql_account_repository.go:31-79 | a customer account opens active, credit-normal, without overdraft, at zero |
| `ExactlyOnce.OneCreationPerKey` | apps/core/internal/corebanking/sql_transfer_repository.go:284-311 | over any run at most one step answers created for an idempotency key, and none once the key is taken |
| `ExactlyOnce.OneRowPerKey` | apps/core/internal/corebanking/sql_transfer_repository.go:1117-1121 | at most one transfer carries a key |
| `ExactlyOnce.OnePostingPerEvent` | apps/core/internal/corebanking/sql_provider_event_repository.go:12-79 | over any run at most one step that carries a given provider event posts a journal |
| `ExactlyOnce.OneFinalisation` | apps/core/internal/corebanking/sql_transfer_repository.go:121-147 | over any run at most one step makes a given transfer final |
| `ExactlyOnce.OneHoldExit` | apps/core/internal/corebanking/sql_holds.go:27-61 | over any run a transfer's hold leaves active at most once |
| `ExactlyOnce.JournalOwnership` | apps/core/internal/corebanking/sql_transfer_repository.go:411-442 | a succeeded transfer owns exactly one journal, any other owns none |
| `ExactlyOnce.HoldLifecycle` | apps/core/internal/corebanking/sql_transfer_repository.go:838-882 | an outbound transfer that was ever pending has a hold of its account and amount, active, consumed or released as the transfer is pending, succeeded or failed |
| `ExactlyOnce.OnlyOutboundHeld` | apps/core/internal/corebanking/sql_transfer_repository.go:449-453 | a hold belongs to an outbound transfer that reverses nothing |
| `ExactlyOnce.HeldIffEverPending` | apps/core/internal/corebanking/sql_transfer_repository.go:449-453 | a transfer without a hold at the start of a run has one at its end if and only if it was a pending outbound transfer at some point, so none recorded as final at once |
| `ExactlyOnce.ReplayReturnsTransfer` | apps/core/internal/corebanking/sql_transfer_repository.go:301-311 | a request that created a transfer gets it back at any later time, and writes nothing |
| `ExactlyOnce.ReusedKeyRefused` | apps/core/internal/corebanking/sql_transfer_repository.go:1187-1195 | the same key with another fingerprint is refused with a conflict at any later time, and changes nothing |
| `ExactlyOnce.EventReplay` | apps/core/internal/corebanking/sql_transfer_repository.go:312-325 | a known event under a new key gets its transfer for the same payload, a conflict for another; neither writes |
| `ExactlyOnce.ReviewMovesNothing` | apps/core/internal/corebanking/sql_transfer_repository.go:468-565 | recording a review adds no journal and moves no balance, hold or lien |
| `Replays.ReplayIsJustified` | apps/core/internal/corebanking/sql_transfer_repository.go:1187-1227 | a request answered with an existing transfer carried its key and payload, or an event recorded for it with this payload, or names the same posted movement between the same two accounts |
| `Replays.SettlesWhatItNames` | apps/core/internal/corebanking/sql_transfer_repository.go:326-331 | settlement by reference finalises only a pending transfer with the request's provider, reference, direction, account, amount and currency |
| `Replays.ReferenceReplays` | apps/core/internal/corebanking/sql_transfer_repository.go:333-345 | a final request that found a settled transfer of its reference gets it if it is the same request, and is refused otherwise |
| `Replays.FingerprintsTell` | apps/core/internal/corebanking/idempotency.go:10-31 | a given fingerprint is the request's; otherwise two requests share one exactly when every field told apart is the same |
| `Funds.TakingsCovered` | apps/core/internal/corebanking/sql_transfer_repository.go:365-375 | what a step other than a reversal takes from available by a hold, a lien or a posting that consumes no hold was available in full |
| `Funds.NoOverspend` | apps/core/internal/corebanking/policy.go:3-15 | no step but a reversal takes available of a customer account without overdraft below zero, or lowers it while below |
| `Guards.GoesThroughIff` | apps/core/internal/corebanking/sql_transfer_repository.go:178-260 | a reversal commits a new row if and only if the transfer succeeded, is no reversal, has none and one counterparty, nothing recorded before stands in the way, and the account controls allow it |
| `Guards.CompletionDebitsIff` | apps/core/internal/corebanking/sql_transfer_repository.go:794-871 | a completion or requery debits a customer account if and only if it finishes, as succeeded, a pending outbound transfer on it |
| `Deficits.BelowZeroIff` | apps/core/internal/corebanking/policy.go:3-15 | a step takes a customer account without overdraft from something available to below zero if and only if it is a reversal whose guards pass and that debits it by more than is available |
| `Deficits.EverBelowIff` | apps/core/internal/corebanking/sql_transfer_repository.go:348-375 | over any run such an account is ever below zero if and only if some reversal of the run was not covered |
| `Deficits.HoldsCovered` | apps/core/internal/corebanking/sql_transfer_repository.go:348-375 | in every run whose reversals the account covered, its holds and liens never exceed its ledger |
| `Deficits.DebitCoveredOrHeld` | apps/core/internal/corebanking/sql_transfer_repository.go:850-871 | a step other than a reversal that debits such an account found the amount available or consumes a hold |
| `Deficits.DebitInDeficitIff` | apps/core/internal/corebanking/sql_transfer_repository.go:658-685 | below zero, a step other than a reversal debits the account if and only if it is a completion, requery or settlement whose guards pass on a pending transfer that holds its money, which consumes that hold; it takes nothing from available |
| `Deficits.DeficitNeedsReversal` | apps/core/internal/corebanking/policy.go:49-57 | it is below zero at the end of a run only after a reversal that was not covered |
| `Deficits.FlaggedIff` | apps/core/internal/corebanking/policy.go:49-57 | a step marks reversal_deficit if and only if it is a reversal whose guards pass, of an inbound transfer, on a restricted account whose ledger is less than the amount |
| `Deficits.BelowZeroFlaggedIff` | apps/core/internal/corebanking/policy.go:49-57 | a step that takes available below zero is flagged if and only if the transfer undone was inbound and its amount exceeds the ledger too |
| `Deficits.OverdraftFlaggedIff` | apps/core/internal/corebanking/sql_transfer_repository.go:380-383 | a ledger falls below zero if and only if a reversal whose guards pass takes back more than it, or a request finishes a held transfer of more than it in a deficit; the step is flagged if and only if it is a reversal of an inbound transfer |
| `Funds.UncoveredDebitMovesNothing` | apps/core/internal/corebanking/sql_transfer_repository.go:365-375 | while available does not cover a customer-initiated debit, a row recorded for it is failed, unposted and unheld |
| `Funds.DeficitMarkedIff` | apps/core/internal/corebanking/policy.go:49-57 | reversing an inbound transfer is marked reversal_deficit, and put to manual review, if and only if the account's ledger ends below zero |
| `Funds.ReversalCancels` | apps/core/internal/corebanking/sql_transfer_repository.go:224-246 | the journals of a transfer and of its reversal have no net effect on any account |
| `Funds.OneReversal` | apps/core/internal/corebanking/sql_transfer_repository.go:1123-1132 | a transfer has at most one reversal, and what is reversed is not itself a reversal |
| `Funds.ReverseAnswersReversal` | apps/core/internal/corebanking/sql_transfer_repository.go:248-258 | a reversal request that succeeds answers with a reversal of the transfer named and changes no other row; every other path rolls back |
| `Funds.ReversalReplays` | apps/core/internal/corebanking/sql_transfer_repository.go:198-207 | a reversal request that answered, sent again after any other requests, gets the same reversal and writes nothing |
| `Funds.BarredLedgerStill` | apps/core/internal/corebanking/policy.go:17-47 | no step moves the ledger of a frozen or closed customer account |
| `Funds.BarredLedgerConstant` | apps/core/internal/corebanking/sql_transfer_repository.go:352-354 | over any stretch of a run in which an account stays frozen or closed its ledger is constant |
| `Funds.NoDebitLedgerRises` | apps/core/internal/corebanking/policy.go:24-37 | under post-no-debit a ledger falls only when the account is the counterparty of the transfer being reversed |
| `Funds.NoDebitLedgerNeverFalls` | apps/core/internal/corebanking/sql_transfer_repository.go:660-662 | over any stretch under post-no-debit without such a reversal the ledger never falls |
| `Funds.StatusMoves` | apps/core/internal/corebanking/service_account_controls.go:10-68 | a status moves only between active and frozen, and active and post-no-debit, by a status request for that account |
| `Phases.TwoPhasesAsOne` | apps/core/internal/corebanking/sql_transfer_repository.go:838-871 | holding and then completing as succeeded leaves every balance where posting outright would |
| `Phases.FailingUndoesHolding` | apps/core/internal/corebanking/sql_holds.go:13-48 | holding and then failing puts every balance back and posts nothing |
| `Phases.PlacingTakes` | apps/core/internal/corebanking/sql_account_controls.go:86-113 | placing a lien takes its amount, which was there, from one available balance |
| `Phases.LienGivesBack` | apps/core/internal/corebanking/sql_account_controls.go:134-163 | after any run a release gives exactly the lien's amount back if it is still active and changes nothing otherwise, and a second release changes nothing |
| `Phases.LienEndsIff` | apps/core/internal/corebanking/sql_account_controls.go:137-152 | a lien stops being active if and only if a release names it and its account |
| `Phases.OneLienRelease` | apps/core/internal/corebanking/sql_account_controls.go:141-144 | over any run a lien is released at most once |
| `Phases.ReleasingUndoesPlacing` | apps/core/internal/corebanking/sql_account_controls.go:86-163 | placing and releasing a lien leaves every balance as it was |
| `Isolation.ExecLocal` | apps/core/internal/corebanking/sql_transfer_repository.go:1162-1170 | what a transaction decides depends only on what it has locked |
| `Confinement.ExecCovered` | apps/core/internal/corebanking/sql_transfer_repository.go:283-300 | whatever a transaction's statements alter it has locked or created |
| `Confinement.StepConfined` | apps/core/internal/corebanking/sql_account_repository.go:224-260 | a transaction leaves every resource it neither locked nor created as it was |
| `Interleaving.CommitIsStep` | apps/core/internal/corebanking/transaction.go:35-41 | a transaction that read one resource at a time while others committed commits what it would have done alone, at its commit |
| `Interleaving.Serialised` | apps/core/internal/corebanking/transaction.go:19-43 | any interleaving leaves the tables and gave the replies of the committed transactions run one by one in commit order |
| `Interleaving.OneCallerCreates` | apps/core/internal/corebanking/sql_transfer_repository.go:80-89 | however callers with one key race, at most one is told created |
| `Interleaving.ProviderAskedOnce` | apps/core/internal/corebanking/service_external.go:198-230 | the provider is asked to initiate at most once per key, also when a caller disappears before completing |
| `Interleaving.OneTransactionFinalises` | apps/core/internal/corebanking/sql_transfer_repository.go:327-331 | however completion, requery and settlement race, at most one committed transaction makes the transfer final |
| `Interleaving.OneTransactionEndsHold` | apps/core/internal/corebanking/sql_holds.go:27-61 | however they race, at most one committed transaction ends its hold |
| `Interleaving.OneTransactionPostsEvent` | apps/core/internal/corebanking/sql_provider_event_repository.go:12-31 | however deliveries of one event race, at most one committed transaction that carries it posts a journal |
| `Interleaving.InterleavedReconciles` | apps/core/internal/corebanking/sql_repository_integration_test.go:608-658 | the balances reconcile with postings and holds after any interleaving |
| `Interleaving.InterleavedHoldsCovered` | apps/core/internal/corebanking/sql_account_controls.go:86-113 | under any interleaving whose committed reversals the account covered, what is held never exceeds the ledger |
| `LockOrder.LocksOrdered` | apps/core/internal/corebanking/sql_account_repository.go:239-260 | every transaction takes its account and balance rows in strictly increasing order |
| `LockOrder.NoAccountDeadlock` | apps/core/internal/corebanking/sql_account_repository.go:224-260 | no wait-for cycle among any number of transactions consists of account and balance rows only |
| `History.OnceEach` | apps/core/internal/corebanking/sql_account_repository.go:169-215 | the history query yields each transfer that concerns the account once, no other, with the signed effect of its journal |
| `History.HistoryAddsUp` | apps/core/internal/corebanking/sql_account_repository.go:190-195 | the signed amounts of a full history add up to the cached ledger |
| `History.SideTells` | apps/core/internal/corebanking/sql_account_repository.go:176-198 | a row shows as a credit exactly when the posted transfer raised the ledger or an unposted one is inbound, and names the other account exactly if it is a customer's |
| `History.SumByTransfer` | apps/core/internal/corebanking/sql_account_repository.go:202-205 | summing journal effects over transfers is summing them over journals |
| `Paging.PagesCoverList` | apps/core/internal/corebanking/sql_account_repository.go:207-215 | pages read with the last row's time and id as cursor concatenate to the whole list, for any limit and any ties |
| `Paging.WholeListRead` | apps/core/internal/corebanking/sql_transfer_repository.go:34-58 | reading from the start yields every row once, newest first, and ends |
| `Paging.DescendingLists` | apps/core/internal/corebanking/sql_account_repository.go:213-214 | the ordered list is strictly newest first and has exactly the table's rows |
| `Paging.TimeOnlyCursorIff` | apps/core/internal/corebanking/sql_account_repository.go:208-212 | a cursor without an id goes on where the full one does if and only if no row tied with the last is unread |
| `Paging.TimePagesCoverIff` | apps/core/internal/corebanking/sql_account_repository.go:207-215 | reading on with times alone gives the whole list if and only if no full page ends inside a tie |
| `Paging.TiedRowLost` | apps/core/internal/corebanking/sql_account_repository.go:208-212 | two rows of one time, read one by one with times alone, of which the second is lost |
| `HistoryPages.PagesAddUp` | apps/core/internal/corebanking/sql_account_repository.go:158-217 | an account's history read page by page shows each transfer that concerns it once, and its signed amounts add up to the ledger |
| `Paging.Clamp` | apps/core/internal/corebanking/service.go:888-896 | the page size is between 1 and 200, and the limit asked for when that is in range |
| `Provider.UnknownWaits` | apps/core/internal/corebanking/service_external.go:735-759 | an outcome unknown in either status field posts nothing, moves no balance and keeps the hold active; the transfer goes to manual review unless the event is on record already or the other field holds another word |
| `Provider.ReviewedIff` | apps/core/internal/corebanking/sql_transfer_repository.go:838-848 | whatever the provider answers, a completion puts the transfer up for manual review if and only if the code takes the outcome for unknown and the event is new |
| `Provider.GarbledRefused` | apps/core/internal/corebanking/sql_transfer_repository.go:934-950 | an answer unknown in its status beside another provider status is refused and changes nothing |
| `Provider.NoAnswerWaits` | apps/core/internal/corebanking/service_external.go:219-226 | so does a timeout or a cancellation, always with manual review, and any answer that names an unknown outcome |
| `Provider.CompletionPostsIff` | apps/core/internal/corebanking/sql_transfer_repository.go:825-863 | a completion posts if and only if the status says succeeded, the provider status is blank or a known word other than unknown, the event is new, and the account controls allow it |
| `Provider.RequeryNeedsAgreement` | apps/core/internal/corebanking/service_external.go:672-733 | a requery settles only when the two status fields do not disagree; an unknown one stays pending |
| `Provider.UnknownRequeryWaits` | apps/core/internal/corebanking/sql_transfer_repository.go:739-792 | requerying with an unknown outcome moves no money and leaves the hold as it was |
| `Provider.UnansweredRequeryWaits` | apps/core/internal/corebanking/service_external.go:322-332 | a requery the provider does not answer reaches the repository and moves no money |
| `Provider.RequeryKeepsInv` | apps/core/internal/corebanking/service_external.go:322-345 | whatever the provider replies to a requery, the invariant survives |
| `Inbound.ConflictOnlyReviews` | apps/core/internal/corebanking/service_external.go:263-291 | redelivering a known event with another payload moves no money and adds at most one unposted review, whatever runs between its two transactions |
| `Inbound.RedeliveryReturnsTransfer` | apps/core/internal/corebanking/service_external.go:265-291 | redelivering an event that created a transfer returns it and writes nothing at any later time, even when the account has been frozen since |
| `Inbound.DeliveryKeepsInv` | apps/core/internal/corebanking/service_external.go:237-291 | both transactions of a delivery are admissible, with anything in between, so the invariant survives |
| `Limits.ConsumedHoldReconcilesIff` | apps/core/internal/corebanking/sql_transfer_repository.go:838-871 | completing a held transfer keeps the account's balances reconciled if and only if the account is credit-normal |
| `Limits.DebitNormalHoldBreaks` | apps/core/internal/corebanking/sql_ledger_repository.go:68-76 | an explicit hold and completion on a debit-normal account after which they no longer reconcile |
| `Limits.UnflaggedOverdraft` | apps/core/internal/corebanking/policy.go:49-57 | an explicit run that undoes an outbound transfer leaves a customer without overdraft below zero with every row posted and matched |
| `Limits.UndoneWhileHeld` | apps/core/internal/corebanking/policy.go:49-57 | so does an explicit run that undoes an inbound transfer whose money is held, in which a plain completion debits the account below zero |
| `Limits.GarbledNotReviewed` | apps/core/internal/corebanking/sql_transfer_repository.go:945-948 | an explicit run after which an answer names an unknown outcome, its completion is refused, and the transfer stays an ordinary pending one |
| `Store.Repository.WithTx` | apps/core/internal/corebanking/transaction.go:19-43 | one transaction answers and leaves the tables as its step says; an error, of the body or of the commit, leaves them untouched; the invariant survives |
| `Store.Repository.ApplyPostings` | apps/core/internal/corebanking/sql_ledger_repository.go:63-76 | the loop writes every posting into the journal and moves the balances as posting them all does |
| `Store.Repository.PostJournal` | apps/core/internal/corebanking/sql_ledger_repository.go:31-78 | writes one balanced journal for the transfer and posts it, sparing the available balance of a held account |
| `Store.Repository.ApplyPostingBalance` | apps/core/internal/corebanking/sql_ledger_repository.go:80-95 | one posting moves one balance row by the delta its normal side gives |
| `Store.Repository.CreateHold` | apps/core/internal/corebanking/sql_holds.go:13-25 | opens an active hold and takes its amount from available only |
| `Store.Repository.ReleaseHold` | apps/core/internal/corebanking/sql_holds.go:27-48 | releases an active hold and gives its amount back; without one it does nothing |
| `Store.Repository.ConsumeHold` | apps/core/internal/corebanking/sql_holds.go:50-61 | consumes an active hold and touches no balance; without one it fails |
| `Store.Repository.ReserveEvent` | apps/core/internal/corebanking/sql_provider_event_repository.go:12-31 | inserts the event unless it is there, and says which |
| `Store.Repository.LinkEvent` | apps/core/internal/corebanking/sql_provider_event_repository.go:60-79 | links the event unless it is missing or linked elsewhere, which is a conflict |
| `Store.Repository.ExistingEventTransfer` | apps/core/internal/corebanking/sql_transfer_repository.go:1172-1185 | answers with the event's transfer for the same payload, a conflict otherwise |
| `Store.Repository.LockTransferAccounts` | apps/core/internal/corebanking/sql_account_repository.go:239-260 | the error of locking two accounts smaller id first, or none |
| `Store.Repository.PrepareRow` | apps/core/internal/corebanking/sql_transfer_repository.go:356-440 | the statuses reassigned branch by branch give the row of a fresh transfer |
| `Store.Repository.RecordTransferBody` | apps/core/internal/corebanking/sql_transfer_repository.go:282-466 | replays, settles by reference or inserts, exactly as decided by `RecordTransfer` |
| `Store.Repository.SettlePendingTransfer` | apps/core/internal/corebanking/sql_transfer_repository.go:623-737 | settles as decided by `Settle` |
| `Store.Repository.FinalisePending` | apps/core/internal/corebanking/sql_transfer_repository.go:658-695 | posts and consumes the hold, or releases it, as the outcome asks |
| `Store.Repository.ExternalOutboundStatuses` | apps/core/internal/corebanking/sql_transfer_repository.go:934-950 | the two statuses of a completion, or none when either is not a known word |
| `Store.Repository.CompleteExternalOutbound` | apps/core/internal/corebanking/sql_transfer_repository.go:794-932 | completes as decided by `CompleteOutbound` |
| `Store.Repository.RequeryBody` | apps/core/internal/corebanking/sql_transfer_repository.go:101-172 | requeries as decided by `RequeryTransfer` |
| `Store.Repository.UpdatePendingInbound` | apps/core/internal/corebanking/sql_transfer_repository.go:739-792 | refreshes a pending inbound row as decided by `RefreshPendingInbound` |
| `Store.Repository.ReverseBody` | apps/core/internal/corebanking/sql_transfer_repository.go:178-260 | recording the opposite movement and then retagging its row amounts to inserting a reversal, as decided by `ReverseTransfer` |
| `Store.Repository.ReviewBody` | apps/core/internal/corebanking/sql_transfer_repository.go:468-565 | records a review as decided by `RecordReview` |
| `Store.Repository.PlaceLienBody` | apps/core/internal/corebanking/sql_account_controls.go:56-132 | places a lien as decided by `PlaceLienOn` |
| `Store.Repository.ReleaseLienBody` | apps/core/internal/corebanking/sql_account_controls.go:134-183 | releases a lien as decided by `ReleaseLienOn` |
| `Store.Repository.SetStatusBody` | apps/core/internal/corebanking/sql_account_controls.go:11-54 | changes a status as decided by `SetAccountStatus` |
| `Store.Repository.CreateAccountBody` | apps/core/internal/corebanking/sql_account_repository.go:19-92 | opens an active credit-normal customer account at zero |
| `Store.AllowedAccountStatusTransition` | apps/core/internal/corebanking/service_account_controls.go:115-125 | the loop answers whether the current status is among those allowed, any being allowed when none is listed |
| `Store.Repository.ExternalOutboundTransfer` | apps/core/internal/corebanking/service_external.go:165-235 | asks the provider if and only if this call created the transfer and committed it, completes with the answer, and keeps the money held when the provider does not know or the completion does not commit |
| `Store.LateCompletion` | apps/core/internal/corebanking/service_external.go:227-230 | a completion after any other requests writes nothing once the transfer is final, and moves nothing when the provider does not answer or names an unknown outcome |

## Left out

- At most one posting per provider reference is not claimed: pending inserts skip the reference check (`sql_transfer_repository.go:294`, `sql_transfer_repository.go:327`).
- Full deadlock freedom is not claimed: `ReverseTransfer` locks the transfer row before the replay keys, and lien release takes the hold row before the balance row.
- Several institutions side by side: each statement is confined to one, so their slices are independent.
- 64-bit overflow of amounts and balances: amounts are unbounded integers.
- SHA-256 and the joining of fields: fingerprints are taken to be injective. Id generation: ids are taken to be fresh. Trimming and case folding: inputs are taken to be normalised.
- Postgres isolation internals: a lock shows the committed value and is held to the end of the transaction. The share locks of foreign keys are not modelled, and an insert into a unique index is treated as holding that key's lock.
- Lookups by provider reference and by lien reference find rows outside any lock; they are modelled as any pick at all, rechecked under the row lock, so theorems hold whatever they find or miss.
- The lookup of the default settlement account and the service's own eligibility checks before a transaction are inputs, and so are the filters of the transfer list.
- Runs.FinalForever: does not model `MarkReconciliationItemReviewed` (`sql_reconciliation_repository.go:91`), which writes the review columns and `updated_at` of a row, final or not, because it touches nothing else of it.
- Narration, audit events, reconciliation notes, customers, account numbers and seeding: no bearing on money or on replays.
- The ids and timestamps of transfer holds: a hold is known by its transfer.
- The mock provider, webhook parsing and name enquiry: the provider is any function from requests to answers.
- Store.Repository.ExternalOutboundTransfer: does not let other transactions run between its two, because a method runs alone; `Store.LateCompletion` and `Interleaving` say what holds then.
- Store.Repository.WithTx: models the transaction without its locks, which `Interleaving` and `LockOrder` model. A rollback that fails adds no outcome: it follows an error that is reported already, and commits nothing.
- Store.Repository.CreateAccountBody: does not model the errors for an unknown customer or a duplicate account number, because customers and account numbers are left out.
- HTTP handlers, authentication, configuration and server: plumbing.
