# Verification model of the trade engine

This project models the money path of the Go engine in Dafny 4.11 and proves properties of it over every run:
the trade lifecycle, the table of operation keys, the double-entry ledger, dispute tickets, quotes, and the
deposit, conversion and payout workers with the webhook, user and admin calls that drive them, and the notifications
its status changes leave in the outbox. Beside it stand three smaller models: the outbox and its senders, the money
arithmetic, and the merge of bank directories.

`dafny verify dfyconfig.toml` checks the whole project.

## How it is built

* `Store.dfy` holds the tables and the one transaction every status change goes through; `Steps.dfy` turns each
  worker pass, webhook, user request and admin call into a step of a machine over those tables. What a provider,
  the blockchain or the clock answered is part of the step. `Run` is any sequence of steps from the empty state.
* `Engine.dfy` is the same engine written the way the program writes it: a class that updates its tables row by
  row, loops over postings and ledger rows, and undoes a transaction that is refused. Every method is proved to
  make exactly its step of the machine and notes it in a trace; the engine is always where the machine is after its
  trace (`TradeEngine.Valid`), so what is proved of runs holds of it (`Engine.TradeEngine.BooksAreKept`,
  `NothingSoldTwice`, `BalanceMeans`, `PaidTradeHasSettled`).
* `Deployment.dfy` says what the program configures the engine with.
* Five modules say what the machine does in terms that owe nothing to how it is written: `Sightings` (what a faultless
  deposit is, as inequalities and letters), `Causes` (for every status, the steps that bring a trade there and what they
  have found), `Rows` (the whole row a change leaves), `Reports` (the ticket a dispute leaves) and `Accounts` (what a trade
  has in every account, by how often it was confirmed, sold, paid, bounced and disputed). `Outcomes` and `Orders` carry
  causes and acceptances over runs.
* The other modules prove what runs keep: `Bookkeeping` (history and keys), `Growth` (what is never taken back),
  `Changes` and `Purposes` (the one change a step makes, and who files which key), `ExactlyOnce`, `LedgerKeys`,
  `LedgerRuns`, `LedgerReading` and `LedgerClock` (the ledger), `Sales`, `Tickets` and `Disputed`, `Deposits`, `Guards`,
  `Escalations`, `Quotes`, `Settlement`, `Refusals` (what the width of the key columns makes impossible), `CleanRun` (an
  ordinary trade goes through and settles), `Notices` (which changes leave a notification) and `Witnesses` (runs from the
  empty state that end badly).

Assumptions made throughout:

* One worker action on one trade, one webhook or one user or admin call is one atomic step. The engine reads the
  trade before its transaction begins; two calls that race between that read and the write are not modelled.
* The end of a sale is a step of its own, which may come at any point after the sale, so the runs considered include
  a worker that stops between the two.
* Integers are mathematical integers, except in the decimal parser and printer, which are modelled on 64 bits.
* Rates are exact numbers, cut where the program cuts them to whole kobo.
* Text is ASCII. Trade identifiers are lower-case UUIDs, drawn fresh; theorems that need it say so (`Steps.Uuids`, which
  every deployment meets, `Deployment.DeployedDrawsUuids`).
* Theorems about refusals are stated for any tables that meet `Refusals.Healthy`; every run's do
  (`Refusals.RunIsHealthy`).
* Column widths and uniqueness are those of the migrations (`go-engine/migrations`): ledger keys have at most 128
  characters and are unique, texts of a trade have at most 128, keys of notifications at most 128, operation keys at
  most 255.
* All rows one transaction writes to the ledger carry the same time, and their identifiers are random, as the
  migrations define them. What balances read back over a run is stated for runs whose posting transactions begin one
  after the other (`LedgerClock.Clocked`), for every choice of identifiers.

## Where the code does not do what it is meant to do

Each of these is a theorem below, with the exact condition.

* The fiat balance of the holding account is read back too high by the fee of every conversion whose fee row drew a
  smaller random identifier than its proceeds row, for good; the trial balance in fiat is off by the same amount, and
  everything is right if and only if no conversion drew so (`LedgerClock.RunReadsIff`, `LedgerClock.RunBalances`; such a
  run: `Witnesses.BalanceMisread`).
* A deposit whose transaction hash has more than 74 characters is never received, because the key of the notification
  written along does not fit its column (`Refusals.ReceivingRefusedIff`).
* A transaction hash of more than 58 characters (49 when the backfill scanner sees it) can never be confirmed,
  because the ledger key made from it does not fit its column; 64 hexadecimal digits do not fit
  (`Refusals.ConfirmationRefusedIff`).
* The same width limits an order to 46 characters for the sale to complete, 50 for its failure and 47 for its timeout to
  be disputed (`Refusals.CompletionRefusedIff`, `Refusals.GivingUpRefusedIff`); a payout reference to 60 for the payout to
  complete (74, by the notification's key, where nothing is owed) and 56 to be marked as failed
  (`Refusals.PayoutRefusedIff`); a user's reason to 55
  (`Refusals.RaiseRefusedIff`); a retry's reason to 45, or 33 after the sale (`Refusals.RetryRefusedIff`); and a forced
  completion's reference and reason to 35 together (`Refusals.ForceRefusedIff`), so that one without a note and without
  a payout reference is always refused (`Refusals.ForceWithoutNoteRefused`).
* An order identifier longer than 128 characters leaves a sold deposit up for sale (`Sales.SaleRecordedIff`).
* A resolution whose key was used before closes the ticket and leaves the trade in dispute
  (`Tickets.DisputeResolvedIff`, `Tickets.SameNoteStrands`; such a run: `Witnesses.DisputeStranded`).
* A sale is escalated once per trade for each of two reasons; later escalations change nothing
  (`Escalations.EscalatesOnce`; such a run: `Witnesses.SecondEscalationSwallowed`).
* A payout turned down for good cannot be marked as failed (`Refusals.RejectedPayoutChangesNothing`).
* A trade pays its user once for every change to PAYOUT_COMPLETED, so the user is overpaid if and only if there is more
  than one and something was owed (`Settlement.UserIsPaid`). A forced completion makes another when it meets a trade
  already paid (`Settlement.ForcedCompletionPays`); a webhook that completes a disputed trade leaves the ticket open for
  that (such a run: `Witnesses.UserPaidTwice`).
* A trade that an admin's retry sends back to a status it has been in is not announced there again
  (`Notices.ToldTheFirstTime`).
* Amounts that start with a minus sign are turned down, but one whose whole part is zeros and whose fraction has the sign
  behind zeros is read as negative (`Decimal.ParsesNegativeIff`; for example `Decimal.NegativeHalf`). No quote comes of it:
  an offer needs a positive amount (`Quotes.OfferMakes`).
* An acknowledgement with a blank token reaches finished notifications (`Outbox.FinishedReachedIff`; such a run:
  `Outbox.BlankTokenUndelivers`).

## Model

| member | source | states |
|---|---|---|
| Lifecycle.FinalIsFinal | go-engine/internal/service/financial_ledger.go:89-144 | once a history reaches a completed, closed or cancelled status it only repeats it |
| Lifecycle.PaidMeansWholePath | go-engine/internal/service/financial_ledger.go:89-144 | a history without dispute that contains PAYOUT_COMPLETED first reaches, strictly in this order, received, confirmed, in progress, converted, pending and completed |
| Lifecycle.MachineRefinesTable | go-engine/internal/statemachine/trade_fsm.go:99-252 | the event machine's moves are exactly the permitted status changes minus eight listed ones |
| Lifecycle.TradeFsm.constructor | go-engine/internal/statemachine/trade_fsm.go:264-282 | the nested table holds, for every status and event, the last row listed for them and nothing else |
| Lifecycle.TradeFsm.Transition | go-engine/internal/statemachine/trade_fsm.go:284-313 | moves the status exactly when a row exists and its guard holds, and leaves it alone otherwise |
| Lifecycle.TradeFsm.CanTransition | go-engine/internal/statemachine/trade_fsm.go:317-331 | predicts Transition's success exactly |
| Lifecycle.QuoteEvents | go-engine/internal/statemachine/trade_fsm.go:99-127 | a quote is accepted as long as it is valid and may expire at any time |
| Lifecycle.WatcherEvents | go-engine/internal/statemachine/trade_fsm.go:128-173 | when the watcher's three events fire, with deadline and confirmation guards |
| Text.NormalizeAppends | go-engine/internal/service/financial_ledger.go:19-30 | appending a lower-case ending to a stored key and normalising again only ever cuts it |
| Text.NormalizeKeepsHead | go-engine/internal/service/financial_ledger.go:19-30 | normalisation keeps a lower-case visible head of a key |
| Store.OperationKey | go-engine/internal/service/financial_ledger.go:59-87 | every key is a normalised text that stays non-blank when it is normalised for the key table, so a reservation never fails for want of a key |
| Store.PostingsFor | go-engine/internal/service/financial_ledger.go:323-499 | debit and credit accounts differ in every posting of every status |
| Ledger.PostAllKeepsJournal | go-engine/internal/service/financial_ledger.go:215-287 | any list of postings leaves the ledger made of balanced pairs, each row's stored balance its account's balance read before plus or minus the amount |
| Ledger.BalanceIsNet | go-engine/internal/service/financial_ledger.go:180-202 | when each account's rows were written in the order they are sorted, the balance read back is all debits minus all credits |
| Ledger.NetsCancel | go-engine/internal/service/financial_ledger.go:215-287 | debits minus credits, summed over any accounts that cover the ledger, are zero in every currency |
| Ledger.TradeBalances | go-engine/internal/service/financial_ledger.go:237-285 | each trade's debits equal its credits, in every currency |
| Ledger.PostAllEffect | go-engine/internal/service/financial_ledger.go:323-499 | postings change their own trade's contribution to an account by exactly their effect and no other trade's at all |
| LedgerKeys.RowKeysTell | go-engine/internal/service/financial_ledger.go:251-252 | stored row keys that fit the column are equal only for the same operation key, kind and direction |
| LedgerKeys.PostAllUnlessTooLong | go-engine/internal/service/financial_ledger.go:215-287 | under a fresh reservation postings are refused exactly when a positive one's row keys exceed the column, and row keys never meet |
| LedgerRuns.UpdateRefusedIff | go-engine/internal/service/trade_ops.go:636-770 | exactly when a status change is refused in a reachable state: not permitted, or new and too wide for a column of the trade, of the ledger or of the notification; never for a taken ledger key |
| LedgerRuns.RunIsSound | go-engine/internal/service/financial_ledger.go:215-499 | in every run the ledger is balanced pairs with unique keys, each going back to a reserved key of the status that posts its kind |
| LedgerReading.FeeOrderDecides | go-engine/internal/service/financial_ledger.go:187-194 | a conversion on a ledger read too high by some amount leaves it so if the fee's credit row drew the larger identifier, and too high by the fee more otherwise, in every account at once |
| LedgerReading.TrialBalance | go-engine/internal/service/financial_ledger.go:180-287 | the balances read back, over accounts that cover the ledger, sum to zero in every currency but fiat, and there to what the holding account is read too high by |
| LedgerClock.RunReadsIff | go-engine/internal/service/financial_ledger.go:180-202 | over every run with transactions one after the other: each balance read is debits minus credits, plus the unread fees for the fiat holding account; rows are in sorting order if and only if every conversion with a fee drew its rows in order |
| LedgerClock.RunBalances | go-engine/internal/service/financial_ledger.go:180-287 | over every such run the trial balance is zero but for the unread fees in fiat, and each trade's debits equal its credits |
| Asks.AskIsProper | go-engine/internal/workers/conversion_processor.go:121-220 | no worker, webhook or user overrides amounts; only received deposits are confirmed, only sales carry an order, only deposit disputes skip the ledger |
| Asks.WatchCases | go-engine/internal/workers/deposit_watcher.go:112-321 | the watcher only ever asks for expiry, a dispute, or the next deposit status of a faultless sighting with enough confirmations |
| Asks.BackfillCases | go-engine/internal/workers/deposit_backfill_scanner.go:79-195 | the same of the backfill scanner |
| Asks.OnlySalesStart | go-engine/internal/workers/conversion_processor.go:166-177 | only an accepted order asks for CONVERSION_IN_PROGRESS |
| Bookkeeping.RunIsRecorded | go-engine/internal/service/trade_ops.go:640-740 | in every run each trade's history is an unbroken chain of permitted changes from PENDING_DEPOSIT to its status, and its status keys number exactly its changes |
| Growth.RunGrows | go-engine/internal/service/trade_ops.go:705-721 | along any run terms, recorded orders, keys, history, ledger rows, closed tickets and used quotes are never taken back |
| ExactlyOnce.AskedAgainIsSilent | go-engine/internal/service/trade_ops.go:640-648 | a change asked for again under a reserved key changes no table, at any later point of any run |
| ExactlyOnce.PayoutCompletesOnce | go-engine/internal/service/trade_ops.go:496-501 | webhook and poller completions of one reference, up to case and outer spaces, have one effect in any run |
| ExactlyOnce.FinalTradesStay | go-engine/internal/service/financial_ledger.go:89-144 | no step of any run moves a completed, closed or cancelled trade |
| ExactlyOnce.PaidTradeWentTheWholeWay | go-engine/internal/service/trade_ops.go:636-740 | in any run a paid, never disputed trade went through every stage in order |
| Escalations.EscalationDisputes | go-engine/internal/workers/conversion_processor.go:131-163 | in every reachable state, giving up on a trade for sale is never refused and disputes it if and only if its escalation key is new; else no table changes |
| Escalations.EscalatesOnce | go-engine/internal/workers/conversion_processor.go:131-163 | in any run, giving up on a trade disputes it if and only if no earlier step escalated it for the same reason; else it stays up for sale |
| Escalations.AttemptsMove | go-engine/internal/workers/conversion_processor.go:121-180 | in every reachable state failed attempts are counted up to five; a filled order, giving up and a recovery forget them, and nothing else touches the count |
| Escalations.SixthFailureDisputesIff | go-engine/internal/workers/conversion_processor.go:148-163 | five failures in a row change no table; the sixth disputes the trade if and only if its attempts were never exhausted before |
| ExactlyOnce.WebhookHandledOnce | go-engine/internal/service/graph_webhooks.go:56-62 | a webhook event delivered again at any later point of a run changes nothing |
| Changes.WhenMade | go-engine/internal/service/trade_ops.go:636-760 | a step that makes a change files it under a new key, writes the trade's row, appends one history row and exactly its postings, and moves no other trade |
| Changes.WhenNotMade | go-engine/internal/service/trade_ops.go:636-648 | any other step leaves the ledger, the keys of status changes and every trade's status and history alone |
| Purposes.HeadsTell | go-engine/internal/service/financial_ledger.go:59-87 | keys of one status that begin alike serve the same purpose and the same trade |
| Purposes.DefaultHeads | go-engine/internal/service/financial_ledger.go:59-87 | the heads, in full, of the keys a user's dispute and an admin's resolutions are filed under |
| Purposes.RunKeysNamed | go-engine/internal/service/financial_ledger.go:146-178 | in any run every status key begins with its purpose and the trade that owns it, however its text was cut |
| Purposes.UnmovedHasNoKeys | go-engine/internal/service/financial_ledger.go:146-178 | every request for a trade whose history holds only its creation is filed under a new key |
| Sales.RunNoResale | go-engine/internal/service/admin_ops.go:529-537 | in every run a trade with a recorded order is past DEPOSIT_CONFIRMED for good |
| Sales.StartedKeyText | go-engine/internal/workers/conversion_processor.go:171-176 | a sale's stored key begins with its trade and goes on exactly when the order is not blank |
| Sales.SaleRecordedIff | go-engine/internal/workers/conversion_processor.go:166-180 | in every reachable state a filled order is recorded if and only if its identifier is non-blank and fits the column; an overlong one leaves the trade for sale |
| Sales.SoldAtMostOnce | go-engine/internal/workers/conversion_processor.go:121-187 | with recordable order identifiers no trade's deposit is sold twice in any run |
| Tickets.RunKeepsOneOpen | go-engine/internal/service/admin_ops.go:265-333 | no trade ever has two open tickets |
| Tickets.DisputeResolvedIff | go-engine/internal/service/admin_ops.go:433-527 | a resolution that goes through leaves no open ticket, touches no other trade's, and takes a disputed trade out of dispute if and only if its key was new |
| Tickets.DisputedMeansTicketed | go-engine/internal/service/trade_ops.go:772-783 | in runs whose resolutions reserve new keys a disputed trade always has an open ticket |
| Tickets.SameNoteStrands | go-engine/internal/service/admin_ops.go:467-487 | a retry under a note already used for the same retry closes the ticket and strands the trade in dispute |
| Witnesses.DisputeStranded | go-engine/internal/service/admin_ops.go:433-527 | a nine-step run from the empty state ends with a disputed trade that has no open ticket |
| Witnesses.SecondEscalationSwallowed | go-engine/internal/workers/conversion_processor.go:131-146 | in that run the second escalation changes no table and leaves the trade up for sale |
| Witnesses.UserPaidTwice | go-engine/internal/service/graph_webhooks.go:84-119 | a ten-step run: the webhook completes a disputed trade and leaves its ticket open, and a forced completion then pays again, so that the wallet holds exactly twice what was owed |
| Witnesses.BalanceMisread | go-engine/internal/service/financial_ledger.go:187-194 | a six-step run after which the fiat holding account is read back higher than its debits minus its credits |
| Disputed.RunTickets | go-engine/internal/service/trade_ops.go:772-783 | only trades that have been disputed have tickets |
| Disputed.StepAt | go-engine/internal/service/trade_ops.go:699-760 | a step leaves a trade's status, history, hash and actual amount alone or makes the one change it asks for |
| Disputed.BornIff | go-engine/internal/service/trade_ops.go:159-347 | a trade comes into being if and only if a step accepts a quote neither used nor expired, in time, by the user it was made for, to that user's own bank account, cleared, under a new creation key |
| Disputed.BornAt | go-engine/internal/service/trade_ops.go:225-347 | the trade then waits for half an hour with its quote's terms, its bank account, address and authorisation and nothing recorded; its quote is used, and nothing else has changed |
| Disputed.NotBegun | go-engine/internal/service/trade_ops.go:175-237 | an acceptance that does not meet all of these conditions changes nothing |
| Orders.OrderBeginsIff | go-engine/internal/service/trade_ops.go:159-347 | after any run whose orders name users, quotes and bank accounts by UUIDs an acceptance begins its trade if and only if it meets the conditions on the quote, the user and the bank account: the creation key never stands in its way, and otherwise nothing changes |
| Orders.CreationKeyIs | go-engine/internal/service/trade_ops.go:230-237 | a creation key names user, quote and bank account, whole |
| Sightings.ToleratedIff | go-engine/internal/workers/deposit_policy.go:215-221 | an amount is tolerated if and only if it lies between the expected amount less and plus the tolerance |
| Sightings.FaultlessIff | go-engine/internal/workers/deposit_watcher.go:166-258 | the checks find no fault if and only if the transaction is not told to be another trade's, networks and addresses agree or are unsaid, the wallet is not listed, the amount is tolerated, and the transaction stands |
| Sightings.DuplicateWhen | go-engine/internal/workers/deposit_watcher.go:166-182 | a trade is told to be a duplicate when another trade holds the transaction, in whatever case, and it does not or was touched before |
| Sightings.NoDuplicateWhen | go-engine/internal/workers/deposit_watcher.go:166-182 | it is not when no other trade holds the transaction, or it holds it too and was touched after all others |
| Causes.WantsIffCaused | go-engine/internal/workers/conversion_processor.go:87-220 | for every status, every step and every trade: the step asks for the change if and only if it has a cause for it, with the causes of each status written out over watcher, scanner, exchange, payout provider, webhook, user and admin |
| Causes.ResolutionTo | go-engine/internal/service/admin_ops.go:467-511 | a retry leads to DEPOSIT_CONFIRMED where nothing of a sale or payout is recorded and to CONVERSION_COMPLETED otherwise, a closing to DISPUTE_CLOSED, a forced completion to PAYOUT_COMPLETED |
| Outcomes.MovesOnlyByCause | go-engine/internal/service/trade_ops.go:636-760 | a step leaves a trade where it stands, history included, or moves it by one permitted change that it has a cause for |
| Outcomes.FirstTimeLeads | go-engine/internal/service/trade_ops.go:636-760 | in any run a permitted change that a step has a cause for leads to its status where the trade has never been, unless it is refused |
| Outcomes.BouncedFails | go-engine/internal/service/graph_webhooks.go:107-112 | in any run a pending payout that the provider reports as bounced, in a webhook or when asked, is marked as failed the first time |
| Outcomes.PaidOutCompletes | go-engine/internal/service/graph_webhooks.go:107-110 | one it reports as made is completed |
| Outcomes.StillPendingPends | go-engine/internal/service/graph_webhooks.go:113-116 | one a webhook reports as under way is marked as pending the first time |
| Outcomes.UnclearChangesNothing | go-engine/internal/service/graph_webhooks.go:84-129 | news that say neither change no table |
| Outcomes.PaidOnlyByCause | go-engine/internal/service/financial_ledger.go:441-456 | in any run a step puts the amount owed into the user's wallet if and only if it changes the trade to PAYOUT_COMPLETED, on the provider's word that it was paid or by an admin's forced completion; no other step puts anything there |
| Outcomes.ClosingCloses | go-engine/internal/service/admin_ops.go:488-496 | in any run an admin who closes a dispute without payout brings the trade to DISPUTE_CLOSED, posts nothing and leaves it no open ticket |
| Rows.RowWritten | go-engine/internal/service/trade_ops.go:636-760 | the whole row a change leaves: references the step gives replace the ones there were, blank ones replace nothing, only a retry after the sale forgets one, only a forced completion sets an amount, and terms never change |
| Reports.DisputeTickets | go-engine/internal/service/trade_ops.go:772-783 | a dispute that is carried out keeps the trade's open ticket or opens one, raised by the user if and only if the user asked for it, with the reason the step gives, in the words of the check that failed first |
| Reports.TicketsElse | go-engine/internal/service/admin_ops.go:433-527 | any other step leaves all tickets alone, but for an admin's call that is not refused, which closes the one it names with mode, note and name |
| Deposits.OneTradePerTransaction | go-engine/internal/workers/deposit_watcher.go:166-182 | in any run of watcher and scanner no two never-disputed trades hold the same transaction, ignoring case |
| Deposits.ConfirmedOnlyOnEvidence | go-engine/internal/workers/deposit_watcher.go:225-316 | with sane policies a trade becomes confirmed only by a sighting that is final, unreversed, at the expected place and of an amount from expected less to expected plus tolerance, or by an admin's retry of an unsold trade |
| Deposits.BackfillEvidence | go-engine/internal/workers/deposit_backfill_scanner.go:139-173 | the scanner confirms only on such a sighting |
| Deposits.ConfirmedMeansProven | go-engine/internal/workers/deposit_backfill_scanner.go:139-183 | a never-disputed trade that was ever confirmed has such a sighting among the steps of its run |
| Guards.NoPayoutWithoutAuthorisation | go-engine/internal/service/trade_ops.go:438-486 | in any run a never-disputed trade carries a payout reference, or is being or has been paid, only if its payout was authorised |
| Guards.CancelledOnlyWhenExpired | go-engine/internal/workers/deposit_watcher.go:120-140 | a trade is cancelled only by the watcher, while waiting and after its deadline; the watcher receives a deposit only before it |
| Guards.FaultyDepositIsDisputed | go-engine/internal/workers/deposit_watcher.go:166-258 | a fault the watcher finds in time disputes and tickets the trade with nothing posted if and only if its own key is new and the hash fits; else no table changes |
| Guards.LostFinalityIsDisputed | go-engine/internal/workers/deposit_backfill_scanner.go:185-194 | the same of a deposit that loses confirmations below finality, up to a pending payout |
| Guards.RetriedIsPickedUp | go-engine/internal/service/admin_ops.go:467-487 | after a retry under a new key the conversion worker records the next filled order of the unsold trade, or the payout worker starts a payout exactly if it is authorised |
| Quotes.PricedFairly | go-engine/internal/service/trade_ops.go:562-611 | on both price paths net plus fee is gross and neither is negative |
| Quotes.OfferMakes | go-engine/internal/service/trade_ops.go:19-157 | an offer makes a quote if and only if its asset can be sold, its amount is positive and its prices are not negative: good for two minutes, gross the worth in whole kobo at the prices found or at the fixed ones, net what the tiered rate or two per cent leaves of it; nothing else changes |
| Quotes.LapseMarks | go-engine/internal/service/trade_ops.go:511-560 | a quote is marked as expired if and only if it is neither used nor expired and its time is up |
| Quotes.RunIsQuoted | go-engine/internal/service/trade_ops.go:183-322 | in any run no quote is both accepted and expired, each backs at most one trade with its terms, and every posting of sale proceeds is the quote's gross amount |
| Accounts.RunIsBooked | go-engine/internal/service/financial_ledger.go:323-499 | in any run every trade, disputed or not, has in each account of each currency exactly what its confirmations, sales, payouts, bounced payouts and disputes with an amount set aside come to: minus the deposit in the blockchain account, what is in but not out in both holding accounts, the deposit and minus gross in inventory, fee, wallet and both suspense accounts, nothing elsewhere |
| Settlement.RunIsAccounted | go-engine/internal/service/financial_ledger.go:323-499 | in any run the ledger holds for a never-disputed trade, in every account, exactly what its history calls for, and for a disputed one in every account but the two a dispute's adjustment moves an amount between (`Accounts.RunIsBooked` spells out what it calls for) |
| Settlement.UserIsPaid | go-engine/internal/service/financial_ledger.go:323-499 | in any run every trade, disputed or not, has put the promised amount into the user's wallet once per change to PAYOUT_COMPLETED; the user is overpaid if and only if something was owed and there was more than one |
| Settlement.CleanPath | go-engine/internal/service/financial_ledger.go:89-144 | a history without dispute, failed payout or repetition that is paid is the seven statuses of the whole path |
| Settlement.CleanRunSettles | go-engine/internal/service/financial_ledger.go:336-456 | such a trade leaves nothing in the holding account, pays the user what the quote promised and the platform its fee |
| Settlement.ForcedCompletionPays | go-engine/internal/service/admin_ops.go:498-511 | a forced completion adds the expected amount to the user's wallet if and only if its key is new, whatever status it finds |
| Refusals.FiledTooLongIff | go-engine/internal/service/financial_ledger.go:251-252 | row keys of a posting filed under prefix, trade and text fit exactly when prefix, text and kind have at most 84 characters |
| Refusals.ReceivingRefusedIff | go-engine/migrations/000005_security_notifications.up.sql:18-30 | receiving a deposit is refused exactly for hashes longer than 74 characters, whoever sees it |
| Refusals.ConfirmationRefusedIff | go-engine/migrations/000004_ledger_webhooks_triggers.up.sql:50-53 | confirming a deposit is refused exactly for hashes longer than 58 characters (watcher) or 49 (scanner) |
| Refusals.CompletionRefusedIff | go-engine/internal/workers/conversion_processor.go:184-191 | completing a sale is refused exactly for orders longer than 46 characters |
| Refusals.GivingUpRefusedIff | go-engine/internal/workers/conversion_processor.go:99-209 | the worker's request to dispute a failed sale is refused exactly for orders longer than 50 characters, and to dispute a stale one for recorded orders longer than 47 |
| Refusals.PayoutRefusedIff | go-engine/internal/service/trade_ops.go:496-509 | completing a payout is refused exactly for references longer than 60 characters, 74 where nothing is owed, and marking it as failed for references longer than 56, 128 where nothing is owed |
| Refusals.RaiseRefusedIff | go-engine/internal/service/user_ops.go:467-512 | a user's dispute worth something, under a new key, is refused exactly for reasons longer than 55 characters without trailing space |
| Refusals.RetryRefusedIff | go-engine/internal/service/admin_ops.go:467-487 | a retry of a dispute is refused exactly for reasons longer than 45 characters, 33 after the sale |
| Refusals.ForceRefusedIff | go-engine/internal/service/admin_ops.go:498-511 | a forced completion is refused exactly when reference and reason together exceed 35 characters |
| Refusals.ForceWithoutNoteRefused | go-engine/internal/service/admin_ops.go:498-511 | a forced completion without a note of a trade without a payout reference is refused |
| Refusals.RejectedPayoutChangesNothing | go-engine/internal/workers/payout_processor.go:98-110 | marking a rejected payout as failed changes nothing at all |
| CleanRun.OrdinaryTradeCompletes | go-engine/internal/workers/payout_processor.go:64-173 | from any reachable state a waiting trade whose deposit is seen in time, final and faultless is completed by six worker steps at any times, if their texts are short, and settles: nothing is left in the holding account, and user and platform have their amounts |
| Engine.TradeEngine.Reserve | go-engine/internal/service/financial_ledger.go:146-178 | inserts a key exactly when it is absent |
| Engine.TradeEngine.LedgerBalance | go-engine/internal/service/financial_ledger.go:180-202 | the scan finds the balance of the account's newest row by time and identifier, zero when there is none |
| Engine.TradeEngine.PostBalanced | go-engine/internal/service/financial_ledger.go:215-287 | writes exactly the pair of rows of one posting, or reports the key column's refusal and writes nothing |
| Engine.TradeEngine.PostEach | go-engine/internal/service/financial_ledger.go:323-499 | posts a list first to last, stopping at the first refusal |
| Engine.TradeEngine.OpenDispute | go-engine/internal/service/admin_ops.go:265-333 | keeps an open ticket of the trade, else opens one |
| Engine.TradeEngine.UpdateTradeStatus | go-engine/internal/service/trade_ops.go:621-786 | the transaction is exactly the machine's update, and a repeat or a refusal leaves every table as it was |
| Engine.TradeEngine.CreateQuote | go-engine/internal/service/trade_ops.go:19-157 | makes exactly the Offer step, which `Quotes.OfferMakes` writes out |
| Engine.TradeEngine.ExpireQuote | go-engine/internal/service/trade_ops.go:511-560 | makes exactly the Lapse step, which `Quotes.LapseMarks` writes out |
| Engine.TradeEngine.CreateTrade | go-engine/internal/service/trade_ops.go:159-347 | makes exactly the Accept step, whose conditions and result `Disputed.BornIff` and `Disputed.BornAt` write out |
| Engine.TradeEngine.FindByTxHash | go-engine/internal/service/store.go:252-301 | finds a holder of the hash touched last, none exactly when no trade holds it |
| Engine.TradeEngine.JudgeWatched | go-engine/internal/workers/deposit_watcher.go:112-321 | the watcher's branches ask for exactly the machine's change, which `Causes.WantsIffCaused` writes out |
| Engine.TradeEngine.JudgeBackfilled | go-engine/internal/workers/deposit_backfill_scanner.go:79-195 | the scanner's branches ask for exactly the machine's change, which `Causes.WantsIffCaused` writes out |
| Engine.TradeEngine.WatchDeposit | go-engine/internal/workers/deposit_watcher.go:112-321 | makes exactly the Watch step with a holder the lookup may return |
| Engine.TradeEngine.BackfillDeposit | go-engine/internal/workers/deposit_backfill_scanner.go:79-195 | makes exactly the Backfill step with a holder the lookup may return |
| Engine.TradeEngine.SaleFilled | go-engine/internal/workers/conversion_processor.go:164-180 | forgets the attempts, notes the sale, and makes exactly the Sell step |
| Engine.TradeEngine.SaleHopeless | go-engine/internal/workers/conversion_processor.go:131-146 | escalates, and forgets the attempts unless the escalation is refused |
| Engine.TradeEngine.SaleFailed | go-engine/internal/workers/conversion_processor.go:148-163 | counts the attempt and escalates at the sixth |
| Engine.TradeEngine.SellDeposit | go-engine/internal/workers/conversion_processor.go:121-180 | makes exactly the Sell step, and none for a trade that is not confirmed |
| Engine.TradeEngine.EndSale | go-engine/internal/workers/conversion_processor.go:182-209 | makes exactly the step that completes or disputes a started sale |
| Engine.TradeEngine.ConvertDeposit | go-engine/internal/workers/conversion_processor.go:121-220 | a whole pass is the Sell step followed, unless it was refused, by the reported end |
| Engine.TradeEngine.RecoverStaleSale | go-engine/internal/workers/conversion_processor.go:87-119 | disputes a sale under way for ten minutes and then forgets its attempts |
| Engine.TradeEngine.JudgeStale | go-engine/internal/workers/conversion_processor.go:99-109 | asks only to dispute a sale under way for the whole timeout, carrying the order recorded on it, exactly as the machine does |
| Engine.TradeEngine.JudgePayout | go-engine/internal/workers/payout_processor.go:76-120 | asks only for an authorised trade with no payout reference, for a pending payout exactly when one was initiated |
| Engine.TradeEngine.JudgePending | go-engine/internal/workers/payout_processor.go:138-172 | asks only about a pending payout and only with the recorded reference, to complete it exactly when it was paid |
| Engine.TradeEngine.InitiatePayout | go-engine/internal/workers/payout_processor.go:64-126 | makes exactly the StartPayout step |
| Engine.TradeEngine.ReconcilePayout | go-engine/internal/workers/payout_processor.go:138-172 | makes exactly the PollPayout step |
| Engine.TradeEngine.ReconcilePendingPayouts | go-engine/internal/workers/payout_processor.go:128-173 | the loop over pending payouts makes exactly their steps in order |
| Engine.TradeEngine.FindByPayout | go-engine/internal/service/store.go:206-250 | finds a trade with the reference touched last, none exactly when no trade has it |
| Engine.TradeEngine.JudgeWebhook | go-engine/internal/service/graph_webhooks.go:84-119 | asks only about a trade that carries the reference and was touched last of those that do, to complete, fail or mark as pending a payout as the news say |
| Engine.TradeEngine.HandleWebhook | go-engine/internal/service/graph_webhooks.go:15-129 | a seen event does nothing; any other makes exactly the Webhook step, whose news lead where `Outcomes.BouncedFails`, `PaidOutCompletes`, `StillPendingPends` and `UnclearChangesNothing` say, and is marked as seen |
| Engine.TradeEngine.ResolveDispute | go-engine/internal/service/admin_ops.go:433-527 | makes exactly the Resolve step, which leads where `Causes.ResolutionTo` says; a refusal undoes it all |
| Engine.TradeEngine.BooksAreKept | go-engine/internal/service/trade_ops.go:417-436 | whatever the engine has carried out, its ledger is balanced pairs under reserved keys, its histories are permitted chains to each status, and no trade has two open tickets |
| Engine.TradeEngine.NothingSoldTwice | go-engine/internal/workers/conversion_processor.go:121-187 | with recordable orders the engine has sold no deposit twice |
| Engine.TradeEngine.BalanceMeans | go-engine/internal/service/financial_ledger.go:180-202 | what the engine's balance scan returns is debits minus credits, plus the unread fees for the fiat holding account |
| Engine.TradeEngine.PaidTradeHasSettled | go-engine/internal/service/financial_ledger.go:336-456 | a clean trade the engine paid has left it its fee only, and paid the user the quoted amount |
| Notices.NoticeTells | go-engine/internal/service/notification_ops.go:135-160 | a notification's key under the trade alone is the key of no other trade and no other status |
| Notices.NoticeSpelled | go-engine/internal/service/notification_ops.go:140-157 | the keys of the announcements under the trade alone, in full |
| Notices.ToldIffVisited | go-engine/internal/service/notification_ops.go:23-160 | whatever the senders do between the engine's steps, the outbox holds the announcement of a trade's confirmation, sale start, sale end, payout start or payout failure if and only if the trade has been in that status |
| Notices.ToldTheFirstTime | go-engine/internal/service/notification_ops.go:23-160 | such a change leaves exactly one more notification if the trade has never been there, and none otherwise |
| Outbox.RunKeepsSound | go-engine/internal/service/notification_ops.go:303-334 | over every run with fresh tokens: delivered and dead-lettered are disjoint and a row is dead exactly at eight failures |
| Outbox.FinishedForGood | go-engine/internal/service/notification_ops.go:279-334 | delivered and dead-lettered rows never change again |
| Outbox.FinishedReachedIff | go-engine/internal/service/notification_ops.go:289-322 | an acknowledgement reaches a finished row if and only if its token is blank |
| Outbox.ClaimTakesOnlyFreeRows | go-engine/internal/service/notification_ops.go:197-225 | a claim takes only unfinished rows past their backoff and without a lease younger than two minutes |
| Outbox.ClaimTakesUpToLimit | go-engine/internal/service/notification_ops.go:197-225 | a claim takes its limit of free rows, or all of them when fewer |
| Outbox.AckWorksOnce | go-engine/internal/service/notification_ops.go:279-334 | an acknowledgement succeeds only with the current token, and that token never works on the row again |
| Outbox.DeliveryIsBounded | go-engine/internal/service/notification_ops.go:303-323 | at most eight failures per notification in any run, dead-lettered exactly at the eighth |
| Outbox.FailureLeadsTo | go-engine/internal/service/notification_ops.go:303-323 | a failure leaves a row with one more attempt, without a lease and not delivered, dead-lettered at the eighth, and due again after 15 seconds, from the third failure a minute, from the fifth five minutes, from the eighth a day |
| Outbox.DeliveryLeadsTo | go-engine/internal/service/notification_ops.go:279-301 | a delivery leaves it delivered now, without lease and error, everything else as it was |
| Outbox.EnqueuedIff | go-engine/internal/service/notification_ops.go:23-69 | a waiting, untried row is added exactly when its key is not blank and no row has it |
| Outbox.NotBeforeBackoff | go-engine/internal/service/notification_ops.go:303-323 | in any run a failed notification is not claimed before its 15 seconds, minute, five minutes or day are over |
| Outbox.CountsAddUp | go-engine/internal/service/notification_ops.go:347-365 | pending, delivered and dead rows are all rows |
| Outbox.Table.EnqueueOnce | go-engine/internal/service/notification_ops.go:23-69 | enqueues a row unless its dedupe key is known |
| Outbox.Table.ClaimPending | go-engine/internal/service/notification_ops.go:190-257 | makes exactly the claim step and returns the rows it leased |
| Outbox.Table.AckDelivered | go-engine/internal/service/notification_ops.go:279-301 | makes exactly the delivery step and reports a stale token as a conflict |
| Outbox.Table.AckFailed | go-engine/internal/service/notification_ops.go:303-334 | makes exactly the failure step and reports a stale token as a conflict |
| Outbox.Table.Metrics | go-engine/internal/service/notification_ops.go:347-365 | counts exactly the waiting and the dead rows |
| BankDirectory.GatheredFields | go-engine/internal/service/bank_directory.go:211-290 | every code holds, for bank id, provider id, slug, NIP and short code, country and currency, the first non-blank value met for it |
| BankDirectory.MergedFields | go-engine/internal/service/bank_directory.go:211-290 | the same over primary then secondary entries |
| BankDirectory.MergedNames | go-engine/internal/service/bank_directory.go:211-290 | a code's name is an entry's name that no later secondary entry overrides, the first one given if it is a primary entry's; its resolve code is the first entry's, or the code itself |
| BankDirectory.PrecedesIsTotal | go-engine/internal/service/bank_directory.go:291-311 | the comparator puts no entry before itself, and of two entries of different codes one before the other |
| BankDirectory.PrecedesIsTransitive | go-engine/internal/service/bank_directory.go:291-311 | the comparator is transitive |
| BankDirectory.TextBeforeIff | go-engine/internal/service/bank_directory.go:307-310 | one text is before another if and only if it has ended or has the smaller character where they first differ |
| BankDirectory.DirectoryOrder | go-engine/internal/service/bank_directory.go:291-311 | in a sorted listing of the merged directory only more popular banks stand before a popular one, and the others stand alphabetically by tidied name, by code where names agree |
| BankDirectory.PopularComeFirst | go-engine/internal/service/bank_directory.go:30-36 | a directory that has the codes 058, 044, 033, 011 and 057 starts with them, in this order |
| BankDirectory.TidyIsOnePass | go-engine/internal/service/bank_directory.go:369-371 | setting a name's words one blank apart is reading it once, keeping visible characters and one blank for the white space between two of them |
| BankDirectory.OverridesIff | go-engine/internal/service/bank_directory.go:373-390 | a name replaces the one held if and only if it is not blank and the one held is blank, or spells another name and is the placeholder or found, ignoring case, in the longer new one |
| BankDirectory.MergeIsDeterministic | go-engine/internal/service/bank_directory.go:211-311 | any two sorted listings of the merged entries are the same sequence, so map order cannot show |
| BankDirectory.Gather | go-engine/internal/service/bank_directory.go:211-290 | the loops over both lists build exactly that table |
| BankDirectory.Insert | go-engine/internal/service/bank_directory.go:291-311 | places an entry so that the listing stays sorted and gains exactly it |
| BankDirectory.Merge | go-engine/internal/service/bank_directory.go:211-311 | returns the sorted listing of the merged table, each code once |
| Decimal.ParseMinorUnits | go-engine/internal/service/helpers.go:73-103 | the padding loop computes the parser's function |
| Decimal.WellFormedParsesToFloor | go-engine/internal/service/helpers.go:73-103 | a well-formed decimal parses to the floor of its value in minor units, or is out of range |
| Decimal.ParsesNegativeIff | go-engine/internal/service/helpers.go:73-103 | a negative amount is read exactly from texts that do not start with a minus sign but spell one behind zeros, across the point |
| Decimal.PrintThenParse | go-engine/internal/service/helpers.go:117-141 | every non-negative 64-bit amount, printed and parsed, is itself; negative ones are refused |
| Decimal.PlusIsRead | go-engine/internal/service/helpers.go:98-102 | a plus sign before the digits is read and means nothing |
| Decimal.NegativePrints | go-engine/internal/service/helpers.go:117-141 | a negative amount prints as its opposite behind a minus sign |
| Decimal.SmallestPrints | go-engine/internal/service/helpers.go:117-141 | all but the smallest of 64 bits, which prints with two |
| Decimal.QuantityIsWholeLots | go-engine/internal/service/sandbox_clients.go:398-415 | an order's quantity, read back, is the amount less its remainder by the lot |
| Decimal.SaleNeverExceedsDeposit | go-engine/internal/service/sandbox_clients.go:398-430 | the same for every asset name: the sale never exceeds the deposit and leaves less than one lot |
| Decimal.AssetSellsInLots | go-engine/internal/service/sandbox_clients.go:398-430 | in the asset's own unit the quantity is the deposit less its remainder by the lot: 100 of a bitcoin's 10^8 parts, 10^13 wei of ether, 10^15 of BNB, 10^4 of a dollar coin's 10^6 |
| Decimal.QuantityFitsExchange | go-engine/internal/service/sandbox_clients.go:398-415 | every order's text is digits and, after a point, at most as many more as the exchange's precision allows, the last not zero |
| Decimal.QuantityZeroIff | go-engine/internal/service/sandbox_clients.go:398-415 | the quantity is zero exactly below one lot |
| Pricing.FeeFallsWithVolume | go-engine/internal/pricing/engine.go:335-351 | the fee rate never rises with the amount |
| Pricing.FeeTiers | go-engine/internal/pricing/engine.go:335-351 | the fee is 300 basis points below an amount of 1,000,000 minor units, 200 below 10,000,000, 150 below 100,000,000 and 100 from there on |
| Pricing.LiveAmounts | go-engine/internal/pricing/engine.go:174-221 | on the live path gross is the worth in kobo rounded down, and net what the fee's rate leaves of it, rounded down |
| Pricing.FallbackAmounts | go-engine/internal/service/trade_ops.go:579-611 | on the fallback path gross is the worth at the fixed prices in kobo rounded down, and the fee two per cent of it rounded down |
| Pricing.LiveQuoteIsSound | go-engine/internal/pricing/engine.go:174-221 | net is between zero and gross and net plus fee is gross, after truncation |
| Pricing.LivePayoutGrows | go-engine/internal/pricing/engine.go:174-221 | selling more never pays less, across fee tiers and truncation |
| Pricing.FallbackQuoteIsSound | go-engine/internal/service/trade_ops.go:579-591 | the same of the fallback path, with a fee of two per cent rounded down |
| Pricing.SeedDeposits | go-engine/internal/service/sandbox_clients.go:346-372 | exactly the reported number of deposits, each positive and within the cap, summing to the larger of amount and minimum |
| Deployment.DeployedIsSane | go-engine/internal/workers/deposit_policy.go:76-129 | whatever the environment says, every policy applied has 1 <= detection <= finality and no negative tolerance |
| Deployment.DeployedConfirmsOnProof | go-engine/internal/workers/deposit_policy.go:76-129 | in any run under any environment a confirmed, never disputed trade had its deposit shown final, within the tolerance either way and unreversed by some step |
| Deployment.DefaultPolicies | go-engine/internal/workers/deposit_policy.go:22-129 | where the environment sets nothing a deposit is detected by one confirmation and tolerates nothing, and is final by 2 for bitcoin, 12 for ether and for dollar coins on Ethereum, 64 for these on Polygon, 20 for BNB |
| Deployment.UntaggedPolicy | go-engine/internal/workers/deposit_policy.go:22-165 | so an asset that can be sold, sent to an address without a tag, needs two confirmations if it is bitcoin and twelve if not |
| Deployment.EnvironmentSets | go-engine/internal/workers/deposit_policy.go:191-213 | a number the environment spells in digits is what it sets, except a count of zero |
| Deployment.EnvironmentLeaves | go-engine/internal/workers/deposit_policy.go:191-213 | what it does not set, or leaves blank, keeps its built-in value |
| Deployment.CodesTell | go-engine/internal/workers/deposit_policy.go:22-74 | no two currencies share a code |
| Deployment.TaggedPlace | go-engine/internal/workers/deposit_policy.go:131-165 | an address tagged with its network is expected there, whatever its currency |
| Deployment.BarePlace | go-engine/internal/workers/deposit_policy.go:131-165 | one without a tag is expected on its currency's own network |
| Deployment.NetworkSpellings | go-engine/internal/workers/deposit_policy.go:167-185 | which spellings stand for which network, both ways; any other name stands for itself |
| Deployment.SandboxPlace | go-engine/internal/workers/deposit_policy.go:131-136 | an address of the sandbox is expected there, whole, however its scheme is capitalised |
| Deployment.NothingConfiguredThere | go-engine/internal/workers/deposit_watcher.go:154-164 | a currency on a network the table does not have, and has no default for, takes one confirmation and no tolerance, whatever the environment says |
| Deployment.DefaultReaches | go-engine/internal/workers/deposit_policy.go:108-118 | a policy put under a currency's default network applies on every network the currency has none of its own for |
| DepositPolicy.LineResolves | go-engine/internal/workers/deposit_policy.go:22-129 | each configured line resolves to the values its own three environment keys set, built-in values otherwise |
| DepositPolicy.PolicySet.constructor | go-engine/internal/workers/deposit_policy.go:76-86 | the policy set is the built-in table under the overrides, every policy sane |
| DepositPolicy.PolicySet.PutPolicy | go-engine/internal/workers/deposit_policy.go:88-106 | stores a corrected policy under its key, nothing for a blank currency |

## Left out

- LedgerClock.RunReadsIff: does not cover runs in which two transactions that post begin at the same instant or out of order, where rows of different transactions would be sorted by their random identifiers or against the order they were written in.
- Races between the read of a trade and its transaction: each step is atomic.
- Failures of the database itself, restarts and tickers: a step either happens or does not, and the attempts counter survives.
- Payloads of notifications, and the notifications about tickets and identity checks, whose keys always fit and meet none of those modelled.
- Actors and notes of history rows, ticket and trade references, and other display fields.
- The words in which providers report the state of a sale or a payout, and the rules that read them: steps carry the outcome already read.
- Know-your-customer checks, tier limits, screening and provider preflight before a trade is accepted: one flag of the Accept step.
- Webhook signatures and the rules that identify a webhook event: steps carry the event's identity.
- Encryption, hashing, sessions, HTTP routing, caches and the Python bot.
- Binary rounding of `big.Float` and `float64`: rates are exact, cut where the program cuts them.
- Overflow of 64-bit amounts outside the decimal parser and printer.
- Unicode case folding and white space beyond ASCII.
- The notification paths for the schema before migration 6.
- Reports of provider readiness and reconciliation runs, apart from the number of sandbox deposits.
