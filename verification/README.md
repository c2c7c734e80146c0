# The accounting core, modelled and proved

This project models the double-entry ledger of `vortex-accounting` and the open-item settlement engine on
top of it, and proves what they promise. The books are one state: moves with their GL lines, partial
reconciliations, the lock dates, the fiscal years and the number sequence. The services are its steps.

Two layers stand side by side.

* **Specifications and theorems.** `*Model` modules give each service as a function from the tables before
  a call to the tables after it, with the same branches and the same errors. The other modules prove the
  properties of these functions, over single calls, pairs of calls and whole runs.
* **The services as written.** `Tables.Database` holds the tables as fields. `Service`, `Documents`,
  `Payments`, `Matcher`, `Settlements`, `Undo`, `Closing`, `Currency`, `Banking`, `AssetRegister` and
  `RecurringBook` rewrite them statement by statement and loop by loop, and each method is proved equal to
  its specification. The table below lists those that loop; the methods without a loop of their own
  (`PostMove`, `CreateAndPost`, `UnpostMove`, `ReverseMove`, `CreateInvoice`, `RefreshDocumentTotals`,
  `PostInvoice`, `RefreshPaymentState`, `RegisterPayment`, `PostRealizedFx`, `CancelDocument`,
  `ResetToDraft`, `ReopenFiscalYear`, `RecordPdc`, `ClearPdc`, `BouncePdc`, `Confirm`, `Dispose`,
  `GenerateOccurrence`) are proved in the same way, errors and what they leave behind included.

| part | modules |
|---|---|
| rows, sums, balances | `Wrappers`, `Rounding`, `Ledger`, `Tables` |
| posting engine | `ServiceModel`, `Service`, `AccountLookup`, `Entries`, `Drafts`, `PostingKeeps`, `Periods`, `Invariant` |
| documents | `DocumentsModel`, `DocumentWorth`, `Taxes`, `InvoiceExpansion`, `Documents`, `DocumentsKeep`, `InvoiceEntry` |
| payments and settlement | `Pools`, `Matcher`, `SettlementModel`, `Payments`, `Settlements`, `PaymentsKeep`, `SettlementsKeep`, `SettlementEffects`, `FundingOrder`, `PaymentEntry`, `SettlementMoney`, `StaleLists` |
| undoing | `Undo`, `UndoKeeps`, `RoundTrip`, `ForeignPlan`, `ForeignReset` |
| currencies | `CurrencyModel`, `Currency`, `FxSettlement`, `ForeignLimits`, `Revaluation` |
| year end | `ClosingModel`, `Closing`, `YearEnd` |
| banking | `BankingModel`, `Banking`, `ContraKeeps`, `ContraRepeats`, `Cheques`, `AutoMatch` |
| assets, recurring entries | `Calendar`, `Assets`, `AssetLife`, `SkippedPeriods`, `AssetRegister`, `Recurring`, `RecurringBook` |
| reports | `Reports`, `Ageing` |
| whole runs | `Runs`, `YearRuns` |
| concrete books for the failing inputs | `SampleBooks` |

`dafny verify dfyconfig.toml` checks everything.

## How things are represented

* Money is an integer number of sen; rates are integers in 10^-10 MYR per unit; raw decimals before
  rounding are integers in 10^-28. `round_dp` is rounding to nearest with ties to even, and shown to be
  the only such rounding.
* A move's id is its position; a GL line is addressed by its move and position. Ledger dates are day
  numbers, and `Calendar` converts civil dates to them.
* Only receivable and payable accounts are reconcilable. A tax is an arbitrary pair of functions from gross
  to base and tax, and a tax's id is its rank in the order of names. Exchange rates are an arbitrary
  function of currency and date.
* Each call is one step. A call that fails half-way leaves exactly what the code leaves: a stray draft, a
  wiped expansion, or the slices already settled.
* `Runs.Call` lists the service calls and the edits that the pages make to drafts of any kind. Cheques,
  depreciation, disposals and recurring entries reach the ledger through the entry calls of that list, so
  its theorems cover them.
* What callers guarantee is stated once, in `Runs.Admissible`. Nothing in `post_settlement`,
  `contra` and, in MYR, `register_payment` asks whether a document is posted; the pages list posted ones only, but take
  the ids back from the submitted form, so a page left open can name a draft. For a MYR payment the condition
  is exact: the money reaches posted documents only (`StaleLists.RegistrationIsSoundWhen`). For the other
  calls it is assumed that the lists name posted moves. Where the code clamps an amount only once the lists
  name each move once: the page of `post_settlement` builds its list from a map; `settle_documents` and
  `apply_payment` have no page, so it is a condition on whoever calls them; and for `contra`, whose page
  passes repeated ids through, it is exactly the lists that over-settle nothing
  (`ContraRepeats.ContraOverSettlesWhen`). A fiscal year begins before it ends, and nobody pulls the lock date
  back. Theorems about who funds what also assume that bank and cash accounts are not receivables or payables
  (`SettlementEffects.FundsApart`).

## Where the code does not do what it says

Where a promise fails, the members named say exactly when it holds and give an input on which it does not;
`SampleBooks` works those inputs through on concrete books.

* `post_move` accepts documents and payments. It keeps the header's total and leaves the GL lines alone, so an
  invoice that is taken back to draft, edited and posted from the journal-entry page owes its new total while
  its old lines stay on the books. The columns are right exactly when the kept total is what the counterpart
  line carries (`Runs.PostedColumnsAreRightWhen`, `Runs.RepostedInvoiceDrifts`); a later settlement recomputes
  them (`Runs.ResidualsNeverDrift`).
* `create_and_post` validates "so we never leave a stray unbalanced draft behind"; it does leave a stray
  draft when the date is refused, and an entry finer than a sen can pass the first check and fail the
  second (`ServiceModel.CreateAndPostOfDecimals` says exactly when; `ServiceModel.SubSenEntryIsRefusedLate`).
* `reset_payment_to_draft` means to refuse foreign-currency payments, but tests a rate that payments never
  carry. The reset goes through and the realised differences stay on the books, as planned before the
  registration (`ForeignReset.ForeignResetLeavesDifferences`, `ForeignReset.PaidAtAnotherRate`).
* Registering and resetting a payment restores every row except those that the money reaches while their
  cached columns are wrong: a document flagged as reversed that is still open, one posted with another total,
  or a plain entry (`RoundTrip.ResetUndoesRegistration`, `RoundTrip.ReversedInvoiceLosesItsFlag`).
* A page left open can pay an invoice that was taken back to draft meanwhile; posted again, the invoice shows
  its whole total on a settled line (`StaleLists.RegistrationIsSoundWhen`, `SampleBooks.PaidDraftDrifts`).
* A write-off on a receipt whose account is a receivable or payable does not fund the targets: the first such
  line of the difference entry is taken, which is then the account's own, and it becomes one more target
  (`FundingOrder.PostSettlementFundsInOrder`).
* A foreign-currency payment whose realised difference cannot be posted is refused after its reconciliation
  was written and before the document is recomputed (`ForeignLimits.SliceIsCutOffWhen`,
  `ForeignLimits.UnpostableDifferenceCutsOff`).
* `contra` reads every open amount once, so a document named twice in a list is settled twice
  (`ContraRepeats.ContraOverSettlesWhen`, `ContraRepeats.RepeatedInvoiceIsOverSettled`).
* A schedule with too little to spread depreciates fully before its end and plans a negative last month
  (`Assets.TooLittleToSpread`); `Assets.ScheduleIsRegular` says exactly when that happens.
* Skipping a period behind a lock date can leave it unposted for good: the asset turns fully depreciated
  with its last period, whatever was skipped, and the job then no longer looks at it
  (`SkippedPeriods.LostForGoodWhen`, `SkippedPeriods.LockedFirstMonthIsLost`).
* `revalue_open_items` remarks that mixed differences net to zero only when all of them are zero. They can
  cancel; the entry then simply needs no gain or loss line and still balances.
* The balance-sheet check looks at active accounts only, so it is off by exactly what the inactive ones
  carry (`Reports.BalanceSheetChecks`).
* The guard of `post_settlement` against a write-off without targets and cash can never fire, since an
  earlier one already refuses that input.

## Model

| member | source | states |
|---|---|---|
| `Runs.BooksAlwaysSound` | crates/vortex-accounting/src/service.rs:418-544 | Every sequence of the 26 service calls and draft edits keeps the invariant: posted entries balance over accepted rows, no MYR line is settled for more than it carries, every reconciliation pairs a debit line with a credit line of posted moves, an item is settled at its receivable or payable line only and then shows what is open, flags are never up on open lines, cached columns are either what the reconciliations say or still as posting wrote them, numbers are unique |
| `Runs.TrialBalanceIsZero` | crates/vortex-accounting/src/service.rs:482-494 | From empty books, after any run, every posted move has at least two one-sided lines with equal non-zero totals, so total debits equal total credits over every date window |
| `Runs.ResidualsNeverDrift` | crates/vortex-accounting/src/documents.rs:701-820 | In every reachable state a posted, non-reversed MYR document or payment whose counterpart line carries its header total has residual = counterpart gross less its reconciliations >= 0, and is paid, partial or not paid, and its flag up, exactly accordingly; for any other the residual is exact if and only if the row is no longer as posting left it, with its whole header total shown and nothing settled |
| `Runs.ForeignResidualsNeverDrift` | crates/vortex-accounting/src/documents.rs:742-790 | The same in document currency for foreign-currency documents, where realised differences can be posted: exact if and only if the row is no longer as posting left it, or was left with its positive total as own-currency residual |
| `Runs.PostedColumnsAreRightWhen` | crates/vortex-accounting/src/service.rs:418-528 | `post_move` takes documents and payments too: the columns it leaves are right if and only if the total it keeps is what the counterpart line carries (in a foreign currency: is positive and already the residual) |
| `Runs.RepostedInvoiceDrifts` | crates/vortex-accounting/src/handlers.rs:911-935 | The failing run, for every unsettled MYR document: taken back, edited to any other total but zero and posted from the entry page, it shows that total while the old counterpart line is what is open |
| `SampleBooks.EditedInvoiceDrifts` | crates/vortex-accounting/src/handlers.rs:911-935 | That run on concrete books: 200.00 is shown, 100.00 is open |
| `Drafts.RedatedKeeps` | crates/vortex-accounting/src/handlers.rs:805-834 | Giving a draft another date or partner changes no day of the books and keeps the invariant |
| `Runs.LockedBalancesAreFinal` | crates/vortex-accounting/src/service.rs:454-480 | Along any run in which nobody pulls the lock date back, every balance through the lock date stays what it was |
| `Runs.ClosedYearBalancesAreFinal` | crates/vortex-accounting/src/service.rs:464-480 | While a fiscal year is closed and not reopened, no balance inside it changes |
| `Runs.FrozenDayStays` | crates/vortex-accounting/src/documents.rs:1884-1915 | A day frozen before every call of a run has the same posted entries at the end: nothing posted on it, taken off it or changed |
| `Runs.NumbersAreUnique` | crates/vortex-accounting/src/service.rs:496-502 | No two moves ever share a number, reposting after a reset included |
| `Service.ValidateBalanced` | crates/vortex-accounting/src/service.rs:161-188 | The checking loop returns the 2-dp total, or the first fault in line order, as the verdict function says |
| `ServiceModel.VerdictOfStored` | crates/vortex-accounting/src/service.rs:161-188 | On lines at storage precision the check accepts exactly the balanced entries and reports their total |
| `ServiceModel.CreateAndPostEffect` | crates/vortex-accounting/src/service.rs:531-544 | For whole-sen input the call succeeds exactly when the entry is balanced, its accounts and journal exist and its date is open; it appends one posted row; it leaves a stray draft exactly when only the date was at fault, and any other refusal leaves the tables as they were |
| `ServiceModel.CreateAndPostOfDecimals` | crates/vortex-accounting/src/service.rs:531-544 | For any decimal input it succeeds exactly when both the raw and the rounded lines balance and configuration and date allow; it leaves a stray draft exactly when the raw lines pass and are stored but the rounded ones do not balance or the date is frozen; any other refusal changes nothing |
| `ServiceModel.SubSenEntryIsRefusedLate` | crates/vortex-accounting/src/service.rs:531-544 | Concrete sub-sen entry that passes the up-front check and is refused once stored, leaving a draft |
| `ServiceModel.PostMoveEffect` | crates/vortex-accounting/src/service.rs:418-528 | Posting succeeds exactly on a balanced draft with an open date; a numbered draft keeps its number, others take the next one |
| `ServiceModel.ReverseMoveEffect` | crates/vortex-accounting/src/service.rs:586-683 | Reversing a balanced posted move appends one posted counter-entry linked to it and flags the original, nothing else; it is refused only for its date or configuration |
| `Entries.ReversalPosts` | crates/vortex-accounting/src/service.rs:586-683 | When a posted move can be reversed, and its counter-entry: same journal and partner, the given day, every line on the other side with the opposite own-currency amount |
| `ServiceModel.SwappedSums` | crates/vortex-accounting/src/service.rs:618-641 | The mirrored entry has the totals exchanged and the opposite net on every set of accounts |
| `Service.CreateMove` | crates/vortex-accounting/src/service.rs:347-414 | The row-by-row insert loop equals its specification; one rejected row undoes all |
| `PostingKeeps.CreateAndPostKeeps` | crates/vortex-accounting/src/service.rs:531-544 | The posting path keeps the invariant and every frozen date |
| `PostingKeeps.ReverseKeeps` | crates/vortex-accounting/src/service.rs:586-683 | So does a reversal of any move |
| `PostingKeeps.UnpostKeeps` | crates/vortex-accounting/src/service.rs:552-580 | So does an unpost, given an open date and no reconciliation on the move |
| `Periods.KeptDaysKeepBalances` | crates/vortex-accounting/src/service.rs:454-480 | If every day of a window is kept, every balance over the window is kept |
| `Documents.ComputeDocumentTotals` | crates/vortex-accounting/src/documents.rs:196-223 | The totals loop equals its specification, which `DocumentWorth.HeaderIsWorth` states from quantities and prices alone |
| `DocumentWorth.HeaderIsWorth` | crates/vortex-accounting/src/documents.rs:196-223 | The header from quantities and prices alone: each line is worth the nearest sen value, ties to even, of quantity × price; net amounts and taxes are its tax's functions of that value and are summed line by line; refused exactly for an unknown tax |
| `InvoiceEntry.InvoiceIsDrafted` | crates/vortex-accounting/src/documents.rs:229-325 | When `create_invoice` accepts a document, and the draft it appends: the totals its lines are worth, both dates, and SAL or PUR unless a journal is given |
| `InvoiceEntry.TotalsAreRefreshed` | crates/vortex-accounting/src/documents.rs:329-360 | A refreshed draft has the header its present lines are worth, one without lines included; nothing else changes |
| `InvoiceEntry.InvoiceIsPosted` | crates/vortex-accounting/src/documents.rs:369-696 | The posted row: the totals its lines are worth, the expansion's lines, in MYR one to one and otherwise at the rate of the invoice date (the document's date without one), which it keeps |
| `InvoiceExpansion.ExpansionAgreesWithHeader` | crates/vortex-accounting/src/documents.rs:523-629 | Whatever the tax function: the move balances, in MYR the counterpart line is the header total = untaxed + tax, in a foreign currency it is within (components+1)/2 sen of converting the total once |
| `InvoiceExpansion.ExpansionSides` | crates/vortex-accounting/src/documents.rs:463-586 | Who is debited and who is credited for each of the four document kinds; line k posts the net part of what it is worth, quantity × price, converted, with its signed own-currency amount, to its own or the default income or expense account |
| `InvoiceExpansion.ExpansionTaxes` | crates/vortex-accounting/src/documents.rs:592-622 | Behind those stands one line per tax that amounts to something, in order: the sum of its parts of the lines' worth, on the tax's own account or the default tax account, on the same side |
| `InvoiceExpansion.ExpansionBalancesInItsCurrency` | crates/vortex-accounting/src/documents.rs:523-629 | A foreign-currency document also sums to zero in its own currency |
| `InvoiceExpansion.BucketsSum` | crates/vortex-accounting/src/tax.rs:37-55 | The per-tax buckets add up to the header's tax |
| `Documents.ExpandLines` | crates/vortex-accounting/src/documents.rs:548-590 | The line loop yields one line per document line and the running MYR sum |
| `Documents.ExpandTaxes` | crates/vortex-accounting/src/documents.rs:592-622 | The bucket loop yields one line per tax worth one and the running MYR sum |
| `DocumentsKeep.PostInvoiceEffect` | crates/vortex-accounting/src/documents.rs:369-696 | Accepted only for a draft document on a date free of lock, closed year and tax lock; only its row changes, and it then owes its recomputed total, in its own currency if it has one |
| `DocumentsKeep.PostInvoiceKeeps` | crates/vortex-accounting/src/documents.rs:369-696 | Keeps the invariant and every frozen date |
| `Invariant.RefreshMakesCurrent` | crates/vortex-accounting/src/documents.rs:730-820 | Whatever the cached columns said, after a refresh they agree with the reconciliations |
| `Invariant.RefreshedAmounts` | crates/vortex-accounting/src/documents.rs:742-800 | The amounts a refresh writes: in MYR what is left of the counterpart line, abroad what is left of the total in its own currency and, as residual, the nearest sen value of that at the document's rate; never negative |
| `Matcher.MatchPools` | crates/vortex-accounting/src/documents.rs:1420-1446 | The two-pointer loop draws both pools down in place and inserts exactly the interval overlaps of the two pools, at most m+n-1 rows; it terminates |
| `Pools.MatchingConsumes` | crates/vortex-accounting/src/documents.rs:1246-1272 | Each line gives up exactly what the other side's total reaches when it is filled in list order |
| `Pools.MatchingGivesWithinSlots` | crates/vortex-accounting/src/documents.rs:1246-1272 | No line is matched for more than it offers |
| `Pools.MatchingTotal` | crates/vortex-accounting/src/documents.rs:1665-1690 | The total matched is the smaller of the two pool totals |
| `Pools.TakenInOrder` | crates/vortex-accounting/src/documents.rs:1420-1446 | First in, first out: a line is touched only when every earlier one is used up |
| `Pools.MatchingShape` | crates/vortex-accounting/src/documents.rs:1420-1446 | Every row is a positive amount with a debit-pool line on the debit side and a credit-pool line on the credit side |
| `Payments.AllocateCompany` | crates/vortex-accounting/src/documents.rs:964-1008 | The company-currency allocation loop equals the recursive specification |
| `Payments.AllocateForeign` | crates/vortex-accounting/src/documents.rs:1009-1088 | The foreign-currency allocation loop equals the recursive specification, with its early errors |
| `PaymentsKeep.RegisterPaymentKeeps` | crates/vortex-accounting/src/documents.rs:825-1094 | Keeps the invariant and every frozen date on every path, errors half-way through a foreign-currency allocation included; existing entries only change in cached columns |
| `PaymentEntry.PaymentMovesMoney` | crates/vortex-accounting/src/documents.rs:845-945 | What an accepted payment posts, in MYR or abroad: money in debits the journal's own account (else the first bank or cash account, by the journal's kind) and credits the partner's receivable, money out debits the partner's payable and credits the bank, each by the amount converted at the day's rate; every other balance stays, realised differences apart |
| `AccountLookup.ControlAccountIs` | crates/vortex-accounting/src/service.rs:278-307 | The receivable or payable of a partner: its own when set, else the configured default, else the first account of the type, and never another |
| `AccountLookup.DefaultsAre` | crates/vortex-accounting/src/service.rs:233-271 | The default account of each role: the configured one, else the first of the role's type |
| `PaymentsKeep.AllocateKeeps` | crates/vortex-accounting/src/documents.rs:961-1008 | The allocation never over-settles the payment or a document |
| `StaleLists.RegistrationIsSoundWhen` | crates/vortex-accounting/src/documents.rs:961-1008 | `register_payment` does not ask whether its documents are posted: after a MYR payment the books are sound if and only if every document that the money reaches, read from the tables before the call, is posted |
| `SampleBooks.PaidDraftDrifts` | crates/vortex-accounting/src/documents.rs:961-1008 | The failing input on concrete books: an invoice taken back to draft, paid from a list that still names it, and posted again shows 100.00 with nothing open |
| `CurrencyModel.RealizedFxIsBalanced` | crates/vortex-accounting/src/currency.rs:104-133 | A realised difference of any sign posts a balanced entry that moves the control account by it, a gain to the gain account, a loss to the loss account |
| `ForeignPlan.PlannedPaymentCloses` | crates/vortex-accounting/src/documents.rs:1042-1086 | When the slices planned before the call use up a foreign-currency payment, the partner's receivable (money in) or payable (money out) moves by their booked MYR within (k+1)/2 sen, whatever the rates; exactly so for one slice |
| `ForeignLimits.PaymentStaysWithinTotals` | crates/vortex-accounting/src/documents.rs:1009-1088 | A foreign-currency payment, refused half-way or not, settles no document whose recorded residual is within its total for more than that total in its own currency |
| `ForeignLimits.SliceIsCutOffWhen` | crates/vortex-accounting/src/documents.rs:1033-1086 | A slice stops half-way exactly when it is worth nothing in MYR or has a difference that cannot be posted; otherwise the document's own-currency columns say what is open |
| `ForeignLimits.UnpostableDifferenceCutsOff` | crates/vortex-accounting/src/currency.rs:89-133 | The failing input: where the accounts for realised differences or the general journal are missing, a payment at another rate is refused with the document settled and its row unchanged |
| `FxSettlement.FxPaymentMovesControl` | crates/vortex-accounting/src/documents.rs:900-929 | The exact movement of the partner's receivable (money in) or payable (money out) for any foreign-currency payment, used up or not, at the day's rate |
| `Entries.RealizedFxPosts` | crates/vortex-accounting/src/currency.rs:104-133 | The entry of a realised difference: a gain is debited to the control account and credited to the gain account, a loss the other way |
| `CurrencyModel.PiecesAgainstWhole` | crates/vortex-accounting/src/currency.rs:42-44 | Converting k pieces against converting their sum once: at most (k+1)/2 sen apart, equal for one piece |
| `Rounding.NearestIsUnique` | crates/vortex-accounting/src/currency.rs:42-44 | `round_dp` is the only rounding to nearest with ties to even |
| `Rounding.RoundIsOdd` | crates/vortex-accounting/src/currency.rs:49-51 | Rounding is odd, so a debit and its mirrored credit convert to opposite amounts |
| `Settlements.SettleDocuments` | crates/vortex-accounting/src/documents.rs:1121-1282 | The service with its pools, in place, equals its specification |
| `SettlementEffects.SettleDocumentsDrains` | crates/vortex-accounting/src/documents.rs:1173-1281 | Each allocated document's open amount falls by exactly its clamped allocation, every other row stays as it was; a payment is posted exactly when the clamped targets exceed the clamped credits, for exactly the difference, and ends fully used: residual zero, paid |
| `SettlementsKeep.SettleDocumentsKeeps` | crates/vortex-accounting/src/documents.rs:1121-1282 | Keeps the invariant and every frozen date |
| `Settlements.ApplyPayment` | crates/vortex-accounting/src/documents.rs:1300-1458 | The service with its insertion sort by date and its pools, in place, equals its specification, whatever is picked; what that order is, in dates: `FundingOrder.ApplyPaymentOldestFirst` |
| `FundingOrder.ApplyPaymentOldestFirst` | crates/vortex-accounting/src/documents.rs:1359-1446 | The picked targets are settled by the picked credits and then the cash, both lists in the order of their dates and, within a day, of their ids; the payment keeps what they do not need |
| `FundingOrder.OlderIsSettledFirst` | crates/vortex-accounting/src/documents.rs:1359-1446 | What that order means: of two picked documents open on the same side the younger one is touched only when nothing is left open on the older one |
| `SettlementMoney.SettleDocumentsMoves` | crates/vortex-accounting/src/documents.rs:1200-1281 | The money `settle_documents` moves: none when the credits pay, else one payment in the header's direction, partner, journal and date for what the targets ask beyond them; every balance on every window is stated |
| `SettlementMoney.ApplyPaymentMoves` | crates/vortex-accounting/src/documents.rs:1375-1446 | The same for `apply_payment`: its cash and nothing else |
| `SettlementMoney.PostSettlementMoves` | crates/vortex-accounting/src/documents.rs:1548-1690 | The same for `post_settlement`: the written-off difference, borne by the given account against the partner's control account, then the cash |
| `SettlementsKeep.ApplyPaymentKeeps` | crates/vortex-accounting/src/documents.rs:1300-1458 | Keeps the invariant and every frozen date |
| `Settlements.PostSettlement` | crates/vortex-accounting/src/documents.rs:1493-1699 | The service with its pools, in place, equals its specification, whatever is allocated |
| `FundingOrder.PostSettlementFundsInOrder` | crates/vortex-accounting/src/documents.rs:1558-1690 | Credits, then write-off, then cash fund the targets in list order; the advance left is cash - clamp(targets - credits - write-off, 0, cash); on a receipt whose write-off account is itself a receivable or payable the difference is the last target instead of a fund |
| `FundingOrder.CreditLeftMeansCashUnapplied` | crates/vortex-accounting/src/documents.rs:1570-1690 | A credit keeps part of its offer only if the cash is wholly unapplied |
| `FundingOrder.EarlierTargetsFirst` | crates/vortex-accounting/src/documents.rs:1665-1690 | A target receives anything only after every earlier one has received all it asked for |
| `SettlementsKeep.PostSettlementKeeps` | crates/vortex-accounting/src/documents.rs:1493-1699 | Keeps the invariant and every frozen date |
| `SettlementsKeep.LegsAreOk` | crates/vortex-accounting/src/handlers_documents.rs:2897-2922 | Allocation lists that name distinct posted documents give legs that offer no more than is open on each line |
| `UndoKeeps.CancelKeeps` | crates/vortex-accounting/src/documents.rs:1710-1818 | A cancellation flags the document as reversed with nothing outstanding, reconciles its open line with the counter-entry's, leaves every other row alone, and keeps the invariant |
| `UndoKeeps.CancelIsAcceptedWhen` | crates/vortex-accounting/src/documents.rs:1710-1790 | When a cancellation is accepted, and the header of its counter-entry |
| `UndoKeeps.ResetToDraftEffect` | crates/vortex-accounting/src/documents.rs:1826-1928 | When a document can be taken back to draft, and what changes: its stage, state and residual, and no other row |
| `UndoKeeps.ResetToDraftKeeps` | crates/vortex-accounting/src/documents.rs:1826-1928 | Keeps the invariant and every frozen date |
| `Undo.ResetPaymentToDraft` | crates/vortex-accounting/src/documents.rs:1941-2054 | The whole service in place, affected documents and removed rows included, equals its specification |
| `UndoKeeps.ResetPaymentEffect` | crates/vortex-accounting/src/documents.rs:1941-2054 | When a reset is accepted, and the exact tables it leaves; in sound books it is never refused for a foreign currency |
| `UndoKeeps.ResetPaymentKeeps` | crates/vortex-accounting/src/documents.rs:2006-2053 | Keeps the invariant and every frozen date |
| `RoundTrip.ResetReturnsWhatWasSettled` | crates/vortex-accounting/src/documents.rs:2006-2053 | The residual of every posted MYR document or payment, flagged as reversed or not, rises by exactly what the payment had settled on it, and its payment state follows; a row the payment never touched stays as it was |
| `RoundTrip.ResetRecomputes` | crates/vortex-accounting/src/documents.rs:2006-2053 | A MYR row that the payment had settled shows afterwards what was open plus what the payment had settled, and the state that belongs to it, so a reversed flag never survives |
| `Runs.ResetsGiveBack` | crates/vortex-accounting/src/documents.rs:2006-2053 | The same in every state that service calls can reach |
| `RoundTrip.ResetUndoesRegistration` | crates/vortex-accounting/src/documents.rs:961-1008 | Registering a company-currency payment and resetting it restores all reconciliations, and any row, plain entries and foreign-currency documents included, exactly if and only if, before the call, the money did not reach it or its columns were what its reconciliations said |
| `RoundTrip.RegistrationNames` | crates/vortex-accounting/src/documents.rs:961-1008 | Which documents a payment settles, read from the tables before the call: listed, in MYR, open on the other side, and reached before the money runs out |
| `RoundTrip.AgreeingRowIsCurrent` | crates/vortex-accounting/src/documents.rs:730-820 | A MYR row that is not flagged as reversed and whose header agrees with its GL always has columns that say what its reconciliations say |
| `RoundTrip.ReversedInvoiceLosesItsFlag` | crates/vortex-accounting/src/documents.rs:2006-2053 | The failing input, for every open MYR invoice: reversed as an entry, then paid, then the payment reset, it is as open as before and no longer flagged as reversed |
| `SampleBooks.ReversedFlagIsLost` | crates/vortex-accounting/src/documents.rs:2006-2053 | That run on concrete books: 100.00 is open again and the flag is gone |
| `ForeignPlan.RegistrationIsPlanned` | crates/vortex-accounting/src/documents.rs:1009-1088 | The slices a foreign-currency payment settles, with their booked MYR, are the greedy plan read from the tables before the call |
| `ForeignReset.ForeignResetLeavesDifferences` | crates/vortex-accounting/src/documents.rs:1969-1974 | A foreign-currency payment is reset all the same; the control account is then off by exactly what the planned slices are worth on the payment date less what they were booked at, so it is back where it was if and only if those differences add up to nothing |
| `ForeignReset.PaidAtAnotherRate` | crates/vortex-accounting/src/documents.rs:1969-1974 | The failing input: 100.00 booked at 4.2 and paid in full at 4.4 leaves 20.00 on the control account after the reset |
| `SampleBooks.DifferenceStays` | crates/vortex-accounting/src/documents.rs:1969-1974 | That payment and its reset on concrete books |
| `Currency.RevalueOpenItems` | crates/vortex-accounting/src/currency.rs:218-276 | The revaluation loop and its two postings in place equal their specification, whose amounts `Revaluation.RevaluationShowsThenReverses` writes out |
| `Revaluation.RevaluationIsBalanced` | crates/vortex-accounting/src/currency.rs:227-255 | Mixed-sign differences, net zero included, always give a balanced entry; the net goes to the gain or the loss account by its sign |
| `Revaluation.RevaluationShowsThenReverses` | crates/vortex-accounting/src/currency.rs:255-276 | In windows that end on the revaluation date each account has moved by what the open foreign-currency documents on it are worth at the closing rate less what they are worth at their own rates, summed over the posted rows; from the next day every balance is what it was |
| `Closing.CloseFiscalYear` | crates/vortex-accounting/src/closing.rs:86-215 | The close in place, flip loop and running net included, equals its specification |
| `YearEnd.ClosingEntryIsBalanced` | crates/vortex-accounting/src/closing.rs:144-175 | Whatever the year's activity, break-even included, the closing entry passes the balance check |
| `YearEnd.CloseMovesProfitToRetained` | crates/vortex-accounting/src/closing.rs:125-194 | After a close every P&L account sums to zero over the year, 3900 has moved by exactly the prior profit, no other account changes, and the lock only moves forward |
| `YearEnd.CloseSucceedsWhen` | crates/vortex-accounting/src/closing.rs:86-215 | A year closes exactly when it is open, no draft is dated inside it, and every P&L account is flat over it already or journal GEN and account 3900 exist and its last day is open |
| `YearRuns.ReopenRestoresBalances` | crates/vortex-accounting/src/closing.rs:242-246 | Close, any run that does not reopen the year, reopen: every cumulative balance from the day after year end loses exactly what the close had added to it; with nothing in between it is what it was before |
| `YearRuns.ReopenSucceedsWhen` | crates/vortex-accounting/src/closing.rs:220-255 | In every reachable state a closed year reopens exactly when it was closed without an entry or the day after its end is open |
| `YearRuns.ClosingsAlwaysStand` | crates/vortex-accounting/src/closing.rs:86-215 | Over any run, the entry that closed a year stays posted on its last day until the year is reopened |
| `YearEnd.ReversalCancels` | crates/vortex-accounting/src/service.rs:627-641 | A reversal cancels its original in every window that holds both dates |
| `YearEnd.FlipNetIsPlBalance` | crates/vortex-accounting/src/closing.rs:59-80 | The net of the flip lines is minus the period profit |
| `AutoMatch.AutoMatchSuggestions` | crates/vortex-accounting/src/banking.rs:146-167 | The two nested loops equal the greedy specification |
| `AutoMatch.GreedyIsMaximum` | crates/vortex-accounting/src/banking.rs:146-167 | The suggestions are a one-to-one, equal-amount assignment; per amount they match the smaller of the two counts, and no other assignment matches more lines |
| `AutoMatch.BestIsBest` | crates/vortex-accounting/src/banking.rs:151-160 | Each line gets the first of the free GL lines that no free one outscores |
| `AutoMatch.ScoreBands` | crates/vortex-accounting/src/banking.rs:83-100 | The bands: 100 on the same day, 80 up to three days apart, 60 up to a week, 30 up to thirty days, 5 beyond |
| `AutoMatch.ScoreIsPositive` | crates/vortex-accounting/src/banking.rs:83-100 | A pair scores at all exactly when the amounts agree |
| `Banking.Contra` | crates/vortex-accounting/src/banking.rs:524-650 | The contra with its two offset loops in place equals its specification |
| `ContraRepeats.ContraProgress` | crates/vortex-accounting/src/banking.rs:604-648 | For lists without a reached repetition: keeps the invariant and frozen dates, and takes from each document exactly what the matched amount reaches in list order |
| `ContraRepeats.ContraOverSettlesWhen` | crates/vortex-accounting/src/banking.rs:534-650 | A contra settles a document for more than its line carries if and only if a list names a document again before the amounts listed until then cover what is matched |
| `ContraRepeats.RepeatedInvoiceIsOverSettled` | crates/vortex-accounting/src/banking.rs:534-650 | The failing input: any open invoice named twice against a bill of at least twice its amount |
| `SampleBooks.InvoiceIsTakenTwice` | crates/vortex-accounting/src/banking.rs:534-650 | That contra on concrete books: a line over 100.00 is settled for more |
| `ContraKeeps.ContraMovesControls` | crates/vortex-accounting/src/banking.rs:560-585 | A contra takes the matched amount off the partner's receivable and off its payable by one entry of its date and partner, and moves nothing else |
| `Banking.ChequeDesk.MatureDuePdcs` | crates/vortex-accounting/src/banking.rs:478-497 | The daily loop clears the matured cheques one by one, skipping failures, and returns by how many the cleared ones have grown |
| `Entries.RecordPosts` | crates/vortex-accounting/src/banking.rs:301-375 | Recording a cheque moves its amount from the partner's receivable to account 1150, or from 2150 to the partner's payable, on the given date |
| `Entries.ClearPosts` | crates/vortex-accounting/src/banking.rs:377-443 | Clearing moves it on: from 1150 to the first bank account, or from there to 2150 |
| `Cheques.ChequesAreConserved` | crates/vortex-accounting/src/banking.rs:326-475 | Over any run of record, clear, bounce and mature steps, mixed with steps that leave the two accounts alone, 1150 carries the received cheques in hand and 2150 minus the issued ones |
| `Cheques.MatureClearsTheDue` | crates/vortex-accounting/src/banking.rs:478-497 | The daily job clears exactly the cheques in hand with maturity today or earlier, provided accounts 1150 and 2150, a bank account and journal BNK exist and the day is open, and touches no other |
| `Cheques.BounceUndoesRecord` | crates/vortex-accounting/src/banking.rs:463-473 | A recorded-then-bounced cheque leaves every balance as it was |
| `Assets.BuildSchedule` | crates/vortex-accounting/src/assets.rs:30-56 | The schedule loop equals the closed form |
| `Calendar.MonthEndIsLast` | crates/vortex-accounting/src/assets.rs:18-26 | The computed month end is the last day of the same month, leap years included |
| `Assets.ScheduleIsExact` | crates/vortex-accounting/src/assets.rs:30-56 | n amounts on consecutive month ends that sum to exactly D, all but the last equal, the last within n/2 sen of them |
| `Assets.ScheduleIsRegular` | crates/vortex-accounting/src/assets.rs:38-53 | Every cumulative before the last is below D and every amount positive, if and only if the rounded months before the last leave something and are positive |
| `Assets.EnoughToSpread` | crates/vortex-accounting/src/assets.rs:38-53 | D > n(n-1)/2 is enough for that |
| `Assets.TooLittleToSpread` | crates/vortex-accounting/src/assets.rs:38-53 | 100 sen over 150 months is used up after 100 and ends with a negative month |
| `AssetRegister.Register.PostDueDepreciation` | crates/vortex-accounting/src/assets.rs:108-192 | The job's loops over assets and periods equal their specification and return by how many the posted periods have grown |
| `AssetLife.FullyDepreciatedAtLast` | crates/vortex-accounting/src/assets.rs:178-189 | From confirmation, with enough to spread, over any runs of the job mixed with anything else: an asset is fully depreciated exactly when its last period is posted, and then exactly cost less salvage is depreciated if no period was skipped |
| `SkippedPeriods.LostForGoodWhen` | crates/vortex-accounting/src/assets.rs:108-192 | After a run of the job a period stays unposted through everything that can follow if and only if it was unposted and is worth nothing, or the asset was fully depreciated already, or the run posts a due, open period that completes the depreciation and cannot post this one |
| `SkippedPeriods.LostWithTheLast` | crates/vortex-accounting/src/assets.rs:108-192 | With enough to spread: if and only if it was unposted and the asset was fully depreciated already, or the last period is due on an open date and this one is not |
| `SkippedPeriods.LockedFirstMonthIsLost` | crates/vortex-accounting/src/assets.rs:140-189 | The failing run, for any asset over two months or more: with the first month locked, a job after the end leaves it fully depreciated with less than cost less salvage posted, for good |
| `SampleBooks.JanuaryIsLost` | crates/vortex-accounting/src/assets.rs:140-189 | That run on concrete books |
| `AssetLife.PostPeriodEffect` | crates/vortex-accounting/src/assets.rs:128-189 | When one period posts, and what that does to the asset, the expense and the accumulated depreciation |
| `Entries.DepreciationPosts` | crates/vortex-accounting/src/assets.rs:140-176 | The entry of a period: on its day, from accumulated depreciation to expense |
| `AssetLife.DisposalPosts` | crates/vortex-accounting/src/assets.rs:228-280 | What a disposal moves on any accounts: depreciation so far back, proceeds to the first bank account, cost off, proceeds above book value to the account coded 4970, below it to 6970; only posted periods stay |
| `AssetLife.DisposalIsBalanced` | crates/vortex-accounting/src/assets.rs:228-258 | A disposal entry balances for any posted depreciation and any proceeds >= 0, a gain credited and a loss debited to its own account |
| `AssetLife.LifeCostsWhatItCosts` | crates/vortex-accounting/src/assets.rs:108-292 | From confirmation to disposal, over any runs of the job mixed with anything that leaves its accounts alone: accumulated depreciation returns to where it was, the cost leaves the books, and P&L bears exactly cost less proceeds |
| `Calendar.AdvanceIsExact` | crates/vortex-accounting/src/recurring.rs:16-22 | Advancing lands in the target month on the same day or its last one |
| `Calendar.StepsAgainstJump` | crates/vortex-accounting/src/recurring.rs:16-22 | k single steps against one jump: same month, never a later day, the same day when it is at most 28 |
| `Calendar.StepsCanFallShort` | crates/vortex-accounting/src/recurring.rs:144-156 | 31 January stepped twice lands on 28 March, not 31 March |
| `RecurringBook.Templates.GenerateDue` | crates/vortex-accounting/src/recurring.rs:161-191 | The catch-up loop with its runaway counter equals its specification and terminates |
| `Recurring.CatchUpIsExact` | crates/vortex-accounting/src/recurring.rs:161-191 | A normal return leaves nothing due; each template has generated its occurrences once each, in order; and the ledger has gained exactly one move for each, on its day, with the template's lines, posted if the template says so |
| `Recurring.OccurrencesAreTheDueOnes` | crates/vortex-accounting/src/recurring.rs:144-156 | Those are precisely the iterates of its next date on or before both the as-of date and its end, either day included |
| `Recurring.RunawayIsOver1000` | crates/vortex-accounting/src/recurring.rs:161-191 | The job answers with how many entries it made, at most 1000, and gives up only with more than that made |
| `Taxes.AggregateByTax` | crates/vortex-accounting/src/tax.rs:37-55 | The fold into a map yields one bucket per occurring tax with the sums over its lines, in order |
| `Taxes.BucketsCarryAllTax` | crates/vortex-accounting/src/tax.rs:37-55 | The buckets worth a GL line are the expansion's tax lines and add up to the tax total |
| `Reports.CashFlowTiesOut` | crates/vortex-accounting/src/reports.rs:392-409 | For any sound books over the typed chart and any window, operating + investing + financing equals the cash and bank movement (what each of them is: the two rows below) |
| `Reports.CashShowsInItsSection` | crates/vortex-accounting/src/reports.rs:392-409 | What each section is: one more entry between cash and operating, investing or financing accounts changes that section by exactly the cash it moved and leaves the other two as they were |
| `Reports.DepreciationShowsNowhere` | crates/vortex-accounting/src/reports.rs:403-409 | An entry between depreciation expense and fixed assets changes no section |
| `Reports.BalanceSheetChecks` | crates/vortex-accounting/src/reports.rs:1590-1616 | The check equals minus what the inactive accounts carry, so it is zero with all accounts active |
| `Reports.SectionIsBalance` | crates/vortex-accounting/src/reports.rs:1402-1443 | A statement section summed account by account is the balance of its active accounts |
| `Reports.BooksSumToZero` | crates/vortex-accounting/src/handlers.rs:125-141 | Over the fifteen account types the books sum to zero in every window |
| `YearRuns.StatementsTieOut` | crates/vortex-accounting/src/reports.rs:392-409 | In every state that service calls can reach, the cash-flow sections equal the cash and bank movement, and the balance-sheet check is off by exactly what inactive accounts carry |
| `Ageing.SortedPositiveFacts` | crates/vortex-accounting/src/reports.rs:676-691 | The configured bounds keep exactly the positive entries, increasing, each once |
| `Ageing.BucketsAre` | crates/vortex-accounting/src/reports.rs:676-691 | Without a usable bound the columns are 30, 60, 90 and 120 days, otherwise the positive entries |
| `Ageing.BoundDays` | crates/vortex-accounting/src/reports.rs:694-703 | Due today is not overdue; exactly as many days overdue as a bound stands in that bound's column, one day more in the next |
| `Ageing.BucketColumns` | crates/vortex-accounting/src/reports.rs:694-703 | The loop over the bounds yields consecutive inclusive day ranges |
| `Ageing.OneColumn` | crates/vortex-accounting/src/reports.rs:907-929 | Every open document stands in exactly one column, whatever bounds are configured and whatever its due date |
| `Ageing.ColumnsPartition` | crates/vortex-accounting/src/reports.rs:907-929 | Whatever bounds are configured, the columns add up to the total of the open documents |

## Left out

- Several companies, analytic dimensions, budgets, memos, labels and audit columns: they only add columns that no property here depends on.
- E-invoice gating, credit-limit warnings and statement-CSV parsing: branches in front of the modelled steps, without arithmetic or state of their own.
- SQL, connection pools, async execution, triggers and concurrent callers: each service call is one atomic step on the tables.
- The two number sequences per journal type: one counter stands for all of them, so uniqueness is shown across journals.
- Sorting tax buckets by name: a tax's id is its rank in that order, so the order of ids is the order of the output.
- The unit price and quantity of a document line are fixed-point with four decimals; the inputs of payments, settlements, cheques and disposals are whole sen.
- The residual of a foreign-currency payment move: its rate is never stored, so its MYR residual mixes two rates and nothing is claimed about it.
- Runs.ForeignResidualsNeverDrift: is claimed where realised differences can be posted; otherwise a slice with a difference is cut off before the refresh, exactly when `ForeignLimits.SliceIsCutOffWhen` says.
- A contra on a foreign-currency document reconciles it in MYR only and leaves its own-currency residual as it was; what is claimed for it is what the reconciliations say.
- The direction of revaluation differences on payables: open amounts are stored positive for bills too, so the balance, the movement by account as the code computes it and the next-day reversal are claimed, not that a payable should move that way.
- Which line of the counter-entry a cancellation pairs when several stand on the control account: the code takes any, the model the mirror of the line that was open.
- `reverse_move` may run more than once on the same move; only cancellation guards against that, and nothing here assumes it.
- Identifiers are positions here rather than random values; documents of one day are applied in the order of their identifiers, as in the code.
- `finalize_statement`, `quick_counterpart`, `check_credit_limit`, the other statements and the tax returns: they would only add members of a kind already present.
