# Restaurant point of sale: models and proofs

The repository is a restaurant point-of-sale system: orders and their settlement, station screens, a
waiter's optimistic cart, promotions, and receipt and kitchen printing through a Windows agent. This
project models the parts of it where the promise is about whole runs or exact arithmetic, and proves those
promises for every input, every run or every reachable state.

| modules | what they model |
|---|---|
| `Money`, `Sums` | amounts in hundredths, half-up rounding, pro-rata shares, sums over rows |
| `Bill`, `BillStore` | one order: rows, ledger, discount, stock; split and whole-bill payment, first as functions, then as the methods that update the rows in place |
| `BillLaws`, `BillWrites` | the invariant of an order; what a payment keeps between its locked read and its commit; exactly what each other writer keeps, on whatever order its write lands |
| `BillSettlement`, `BillClosing`, `BillEdges` | split payments against the whole-bill payment; rounding; which open orders a payment can still close; the exact limits of the code |
| `BillAnswers` | what a payment or a void is answered, told from the order and the request alone: when it is accepted, what it charges, its cash, and what each refusal means |
| `BillDesk`, `BillRuns` | any number of callers and other writers at once: a payment is cut at the optimistic check, the lock, each row guard and the commit, another writer at what it sees of the order, what it checks of the rows, and its write |
| `BillAlways`, `BillLate`, `BillCover` | what holds in every run, late writes and all; runs in which a write lands after the completion; when the negative-amount check can fire at the desk |
| `PrintServer`, `PrintAgent`, `PrintProtocol`, `PrintRuns` | one print job on the server, the agent's durable table, all agents and browsers with crashes and lost or late messages |
| `PrintRunner`, `PrintTogether`, `PrintProgress` | the agent's code as a path of one client, that path among everything else that goes on, and how a job gets on from wherever it is |
| `CartQueue`, `CartHistory`, `CartCreation`, `CartDraft` | the cart's promise chain, and the chain against the history of its calls; one optimistic line against the server; the lines on the screen and the clock that accepts reads |
| `Calendar`, `Schedule`, `Promotions`, `Texts` | dates and days, promotion windows and the timer that watches them, the winner, the price preview and its one-timer clock |
| `Kds`, `KdsShown`, `Snapshot`, `Selection`, `PinLockout`, `PageHeight` | the station screen's merge and what it shows, structural sharing, modifier choices, PIN lockout over runs, the driver-measured page height |

Every update is a function from state to state. Where the source keeps its state in fields, a class holds the
same fields and each of its methods is proved to make exactly the change the function describes; the laws are
then proved about the functions and about runs of them.

## Assumptions

- Money is integer hundredths, tax rates hundredths of a percent, quantities are at least one, prices and
  taxes are not negative.
- `BillDesk`: when a split payment takes the lock, no row it names is a draft. The rule is documented but not
  enforced (`split-bill-service.ts` lines 110-114 and 282); `BillLaws.ShareStaysWithin` and `BillEdges.DraftPaidRun`
  say exactly what happens without it.
- `BillDesk`: the other writers check first and write later, by row id alone, on whatever the order has become
  (`order-service.ts` lines 182, 319, 363 and 425 against 257, 340, 416 and 442; 551 and 574 against 661, 721 and 746;
  `billing-service.ts` line 98 against 106). Each of these writes updates the order or adds an event that refers to
  it, so it waits while a payment holds the order row, and lands before its lock or after its end. Voids and
  transfers out are guarded by the quantities they read and may land at any time; a transfer in holds the table that a
  closing payment must free. A payment item keeps its order row from being deleted (`schema.prisma`), and a row
  does not enter a station twice.
- Stock and open shift answer yes or no; a refusal by stock rolls the payment back.
- `PrintProtocol`: a browser's transport names one of its two "before submission" errors only when nothing was
  sent to a printer (`apps/web/lib/qz-client.ts`). A process may stop between any two steps, a request may be
  processed when nobody waits for its answer any more, and the lease of a claim may or may not have run out.
- `CartCreation`: no other device changes the row, and a request whose answer is lost is not processed later than
  that. `CartCreation` and `CartDraft`: the user interface changes only lines that are still on the screen.
- `Schedule`: a zone has a fixed offset in whole seconds, and instants lie in or after the year 100.
- `Promotions`: timers fire when due; rounding is any function; rule dates, times and creation times are valid.
- `Kds`: ids are unique among the orders of a poll and among the items of an order, as on the screen before.
- `Snapshot`: two JSON objects are equal when they have equal values under equal keys, in whatever key order.

## Results worth knowing

- A split payment of a draft row is accepted, and its discount share may be any multiple of the discount
  (`BillEdges.DraftPaidRun`); the exact condition under which shares stay within the discount is
  `BillLaws.ShareStaysWithin`.
- Lowering the discount in mid-settlement lets the shares of a completed order exceed it
  (`BillEdges.LoweredDiscountRun`).
- A write that was checked in time can land on an order that has been paid and completed since: another discount
  than its shares add up to, a line that is neither sent nor paid, a quantity below what is paid of it, or a second
  first submission that takes the order back (`BillLate`). Exactly which writes do harm where they land is
  `BillWrites.WriteKeptExactly`, exactly which runs keep the books is `BillRuns.BooksHoldExactly`, and what no late
  write can touch is in `BillAlways`.
- A payment can close an open order exactly while something sent is unpaid, nothing is unsent and the rest of the
  discount fits (`BillClosing.ClosableExactly`). A void that takes the whole unpaid rest of a partly paid order leaves
  it fully paid and open, and no payment closes it any more (`BillClosing.VoidSticksExactly`, `BillEdges.StuckRun`).
- A void between the locked read and the commit can use up the margin a payment was planned with
  (`BillCover.CommitCoverExactly`).
- The whole-bill payment has no check for a negative amount; the split payment of the same rows has
  (`BillEdges.OneSplitAgainstWhole`).
- The branch of the transfer that closes an emptied order as completed cannot be reached
  (`BillSettlement.NothingLeftMeansNeverPaid`).
- A cart line can settle at a quantity the server does not hold when the answer to a change is lost
  (`CartCreation.LostAnswerRun`; exactly when, `CartCreation.ConvergesExactly`), and a refused retry can leave a
  row behind that the screen no longer shows (`CartCreation.OrphanRun`).
- On a station screen an item with a pending write is shown twice exactly when the poll lists it under
  another order as well (`Kds.PendingShownOnce`).

## Model

| member | source | states |
|---|---|---|
| BillStore.ComputeOrderTotals | packages/domain/orders/order-totals.ts:36-74 | the loop over lines comes to the sum of price times quantity, the tax of the summed raw taxes rounded once, and the discount taken off after tax |
| BillStore.CollectRequest | packages/domain/billing/split-bill-service.ts:217-222 | a request is collected exactly when it names at least one row and none twice, and then maps each row to its quantity |
| BillStore.OrderStore.CheckLines | packages/domain/billing/split-bill-service.ts:277-288 | the locked validation reports the first refusal in request order, and otherwise the requested rows with their quantities |
| BillStore.OrderStore.ComputeShare | packages/domain/billing/split-bill-service.ts:318-335 | the discount share: none without a discount, the exact rest for the closing payment, pro rata and rounded half up otherwise |
| BillStore.OrderStore.PayRows | packages/domain/billing/split-bill-service.ts:355-363 | the guarded increments in a loop raise exactly the requested rows by exactly the requested quantities, and no guard can miss while nobody else writes |
| BillStore.OrderStore.PaySplitBill | packages/domain/billing/split-bill-service.ts:193-479 | one call, in place, is the sequential operation: a known key changes nothing and returns its payment, a refusal changes nothing, a success adds one payment with its ledger, stock and closing |
| BillStore.OrderStore.CompletePayment | packages/domain/billing/billing-service.ts:159-325 | the whole bill, in place: refused with drafts, with nothing payable or with anything already paid; otherwise every billable row becomes paid and the order completed |
| BillStore.OrderStore.ApplyOrderDiscount | packages/domain/billing/billing-service.ts:89-113 | checked against the status it was read with, a non-negative discount is set on the order as it is by then, and nothing else changes |
| BillStore.OrderStore.VoidOrderItem | packages/domain/orders/void-service.ts:33-124 | accepted exactly on an order in service for a sent row with that much unpaid; then lowers only what is unpaid, cancelling the row when nothing is left; a refusal changes nothing |
| BillAnswers.SplitAcceptedExactly | packages/domain/billing/split-bill-service.ts:193-479 | under a fresh key a split payment is accepted if and only if the order is in service, the request names rows, none twice, each there, not cancelled and unpaid that far, a shift is open, the stock side agrees, and the charge, told row by row of the order, is not negative and covered by the cash; it then does just that to rows, payments, status and table, and a refusal changes nothing |
| BillAnswers.SplitCashDecides | packages/domain/billing/split-bill-service.ts:345-350 | with cash a request is answered as without, except that too little is refused with the order unchanged, and enough is recorded as given with the rest handed back |
| BillAnswers.SplitCash | packages/domain/billing/split-bill-service.ts:345-350 | a split payment just made has taken the cash given, at least the amount, and handed back the rest; without cash just the amount |
| BillAnswers.SplitRefusalIsTrue | packages/domain/billing/split-bill-service.ts:217-350 | every refusal says what is the case: the status, a missing shift, an unknown, cancelled or overasked row, a negative charge, too little cash |
| BillAnswers.KnownKeyIsReplayed | packages/domain/billing/split-bill-service.ts:198-215 | a key used before is answered with its payment, whatever is asked this time, and changes nothing |
| BillAnswers.WholeAcceptedExactly | packages/domain/billing/billing-service.ts:159-325 | the whole bill is accepted as one payment if and only if something is sent, nothing unsent, nothing sent paid, a shift open, stock agrees and cash covers it; every sent row is then paid, the order completed and the table free |
| BillAnswers.WholeCashDecides | packages/domain/billing/billing-service.ts:210-216 | the same of its cash |
| BillAnswers.WholeCash | packages/domain/billing/billing-service.ts:210-216 | the same of the whole bill |
| BillAnswers.WholeRefusalIsTrue | packages/domain/billing/billing-service.ts:159-216 | every refusal of the whole bill says what is the case |
| BillAnswers.VoidDoesJustThat | packages/domain/orders/void-service.ts:95-124 | an accepted void takes that much off its own row, keeps its stage unless nothing is left, and moves nothing else |
| BillAnswers.VoidRefusalIsTrue | packages/domain/orders/void-service.ts:52-93 | every refusal of a void says what is the case |
| BillLaws.CountLinesOrRows | packages/domain/billing/split-bill-service.ts:277-293 | summing a request line by line or row by row comes to the same for price, raw tax and every menu item |
| BillLaws.ShareStaysWithin | packages/domain/billing/split-bill-service.ts:274-335 | the shares stay within the discount exactly when the draft rows being paid do not outweigh the sent rest left unasked by more than the rounding allows |
| BillLaws.ShareConserved | packages/domain/billing/split-bill-service.ts:308-335 | without draft rows a share never takes the shares past the discount, and the closing share brings them to it exactly |
| BillLaws.FinalChargesAll | packages/domain/billing/split-bill-service.ts:310-322 | the closing payment charges exactly everything that is still due |
| BillLaws.ClosesExactly | packages/domain/billing/split-bill-service.ts:307-310 | an uninterrupted payment completes the order, and frees the table, exactly when no row is a draft and every row that is not cancelled is then fully paid |
| BillLaws.CommitSettles | packages/domain/billing/split-bill-service.ts:355-363 | a closing payment settles the order as it is at the commit, whatever voids and transfers did since the locked read |
| BillLaws.CommitGood | packages/domain/billing/split-bill-service.ts:355-479 | a commit under its guards keeps ledger, stock, payment amounts, keys, the discount bound and the closing rule |
| BillWrites.WriteKeptExactly | packages/domain/orders/order-service.ts:362-421 | a write that lands on a good order, whenever it was checked, keeps the books and a completed order completed if and only if it does no harm there: a condition on the row or the discount it meets |
| BillWrites.TimelyIsHarmless | packages/domain/orders/order-service.ts:319-325 | a write does no harm while what its caller had checked of order and rows still holds, and it takes no used discount back |
| BillWrites.WriteDrift | packages/domain/orders/transfer-service.ts:176-205 | none of the writes that do not wait for a payment holding the order moves a sent row further than its row guards allow for |
| BillWrites.CompletedStays | packages/domain/orders/void-service.ts:118-124 | a completed order on which a harmless write lands stays settled and completed; guarded voids and transfers cannot land on it at all, whatever they had read |
| BillWrites.ReferencedIsPaid | packages/domain/orders/order-service.ts:424-447 | the reference that keeps a row from being deleted exists exactly for rows of which something is paid |
| BillWrites.TimelyLands | packages/domain/orders/order-service.ts:551-748 | a write whose check still holds where it lands is never turned away |
| BillWrites.LandsDoJustThat | packages/domain/orders/transfer-service.ts:176-236 | a write that lands leaves of each row just what it says, row by row, and brings just what it brings |
| BillSettlement.NothingLeftMeansNeverPaid | packages/domain/orders/transfer-service.ts:305-329 | an order left without live rows has no payments, so it is always closed as cancelled |
| BillSettlement.WholeGood | packages/domain/billing/billing-service.ts:186-325 | a whole-bill payment keeps the invariant and uses the whole discount |
| BillSettlement.SplitRefinesWhole | packages/domain/billing/split-bill-service.ts:290-340 | however it was partitioned, a completed order has collected the subtotal and the discount of one whole-bill payment of the same rows, and its tax up to half a hundredth per payment |
| BillSettlement.ShareFits | packages/domain/billing/split-bill-service.ts:318-335 | while the rest of the discount fits what is due, a share never exceeds its own payment's subtotal and what is left of the discount fits what is left due |
| BillSettlement.NeverNegative | packages/domain/billing/split-bill-service.ts:337-341 | while the rest of the discount fits what is due, no payment of sent rows is refused as negative |
| BillSettlement.NoRunGoesNegative | packages/domain/billing/split-bill-service.ts:318-341 | over any run of split payments alone, repeats and refusals included, the rest of the discount keeps fitting what is due and the negative check never fires |
| BillCover.CommitCoverExactly | packages/domain/billing/split-bill-service.ts:355-363 | a commit leaves the rest of the discount fitting what is due exactly when what was voided or moved away since the locked read fits the margin the payment was planned with |
| BillCover.WriteCoverExactly | packages/domain/orders/transfer-service.ts:176-205 | of the other writes in time, just a void, a transfer out or a discount larger than the slack breaks that fit |
| BillCover.CoverHoldsExactly | packages/domain/billing/split-bill-service.ts:318-341 | in runs of the desk with writes in time, the fit holds after every step if and only if each such write fits and no margin is used up before its commit; and while it holds no payment is refused as negative |
| BillEdges.VoidKeepsCover | packages/domain/orders/void-service.ts:95-124 | a void keeps the rest of the discount covered exactly when the voided value fits the slack |
| BillEdges.ClosingSharesExact | packages/domain/billing/split-bill-service.ts:322-324 | after the closing payment the shares equal the discount if and only if it was not lowered below what was used |
| BillClosing.ClosableExactly | packages/domain/billing/split-bill-service.ts:268-341 | for an order in service and a fresh key some split payment is accepted and closes it if and only if nothing is unsent, something is unpaid, and the rest of the discount is at most what is due and its tax |
| BillClosing.CoveredClosable | packages/domain/billing/split-bill-service.ts:307-341 | where the rest of the discount fits what is due and nothing is unsent: if and only if some sent row is not fully paid |
| BillClosing.WholeClosable | packages/domain/billing/billing-service.ts:186-215 | the whole-bill payment can close an order if and only if it has sent rows, none unsent and none partly paid |
| BillClosing.PaidUpOpenOrderIsStuck | packages/domain/billing/split-bill-service.ts:277-288 | on an open order where everything sent is paid every payment is refused |
| BillClosing.VoidSticksExactly | packages/domain/orders/void-service.ts:95-124 | a void leaves such an order if and only if it takes the whole unpaid rest, something has been paid and nothing is unsent |
| BillEdges.OneSplitAgainstWhole | packages/domain/billing/billing-service.ts:208-215 | one split payment of an untouched bill charges the whole-bill figures, and is refused exactly where the whole-bill payment would go through with a negative amount |
| BillEdges.DraftPaidRun | packages/domain/billing/split-bill-service.ts:282 | an unsent row can be paid, and its discount share can be its whole price, however far above the discount |
| BillEdges.StuckRun | packages/domain/orders/void-service.ts:118-124 | paying one of two units and voiding the other leaves an order that no payment can close |
| BillEdges.LoweredDiscountRun | packages/domain/billing/billing-service.ts:101-109 | a discount lowered between two payments ends below the shares of the completed order |
| BillDesk.StepKeeps | packages/domain/billing/split-bill-service.ts:242-479 | every step of any caller, and every harmless write, keeps the books, the lock with its one holder, the locked read within reach of the rows, and the guarded rows as they were read |
| BillRuns.BooksHoldExactly | packages/domain/billing/split-bill-service.ts:198-479 | in a run of any number of callers and other writers the books hold after every step, and what was completed stays completed, if and only if every other write does no harm where it lands |
| BillRuns.DeskKeepsTheBooks | packages/domain/billing/split-bill-service.ts:198-479 | so they hold in every run in which no write lands after what its caller had checked has changed |
| BillAlways.OnePaymentPerKey | packages/domain/billing/split-bill-service.ts:198-263 | in every run, late writes and all, the callers answered under one key hold the one payment made under it |
| BillAlways.PaidStaysPaid | packages/domain/billing/split-bill-service.ts:365-380 | no run, late writes and all, removes or changes a payment or an answer |
| BillAlways.CompletingSettles | packages/domain/billing/split-bill-service.ts:307-324 | in every run, late writes and all, a closing commit from a well-formed locked read leaves every row cancelled or paid, the table free, and the shares at the discount unless that was already below them |
| BillRuns.CompletedEndsIt | packages/domain/billing/split-bill-service.ts:272-274 | after completion nothing is charged any more, and the order stays completed exactly unless a late first submission lands |
| BillRuns.CommitClosesExactly | packages/domain/billing/split-bill-service.ts:468-478 | a commit completes the order and frees the table exactly when its locked read had no draft row and leaves every live row paid; what it completes is settled at the commit |
| BillRuns.AloneAsSequential | packages/domain/billing/split-bill-service.ts:193-479 | the steps of a call nobody interrupts come to the sequential operation, state and answer |
| BillRuns.WholeAloneAsSequential | packages/domain/billing/billing-service.ts:159-325 | the steps of a whole-bill payment nobody interrupts come to the sequential operation, state and answer |
| BillLate.LateDiscountRun | packages/domain/billing/billing-service.ts:98-109 | from every order a payment can close: a discount approved in time is written after the completion, and the shares are another amount |
| BillLate.LateAddRun | packages/domain/orders/order-service.ts:182-280 | a line added in time is written after the completion and stays unsent and unpaid |
| BillLate.LateQuantityRun | packages/domain/orders/order-service.ts:362-421 | a quantity checked on a draft row is written once the row has been sent and paid, below what is paid of it |
| BillLate.LateSubmitLands | packages/domain/orders/order-service.ts:721-738 | a late submission of rows that were sent and paid lands if and only if none of them goes to a station |
| BillLate.LateSubmitRun | packages/domain/orders/order-service.ts:551-748 | a second first submission takes a paid and completed order back, and reprices paid rows if the menu has changed |
| PrintAgent.AgentDatabase.RecordReceived | apps/print-agent/AgentDatabase.cs:81-99 | a new attempt overwrites the job's row from the start; other jobs' rows are untouched |
| PrintAgent.AgentDatabase.RecordResultKnown | apps/print-agent/AgentDatabase.cs:125-135 | the job's row, if there is one, takes state and result; other jobs' rows are untouched |
| PrintAgent.AgentDatabase.GetUnresolved | apps/print-agent/AgentDatabase.cs:151-174 | returns exactly the rows the server has not acknowledged, as they are |
| PrintAgent.AgentDatabase.PruneAcked | apps/print-agent/AgentDatabase.cs:179-187 | removes exactly the acknowledged rows older than the cutoff, nothing unresolved |
| PrintProtocol.StepKeeps | apps/print-agent/AgentRunner.cs:371-518 | every step of every client and of the server keeps the protocol's invariant |
| PrintRuns.AtMostOnePrint | apps/print-agent/AgentRunner.cs:371-441 | over every run with crashes, lost and late messages a job is put on paper at most once, under a permitted attempt |
| PrintRuns.WriteAhead | apps/print-agent/AgentRunner.cs:430-437 | an agent that has submitted an attempt has it on disk at print-invoked or later, unless acknowledged and pruned |
| PrintRuns.HonestReports | apps/print-agent/AgentRunner.cs:446-511 | all results ever sent for an attempt are equal; failure before submission is never sent for one that was submitted, success never for one that was not |
| PrintRuns.HonestVerdict | packages/domain/printing/print-service.ts:467-495 | a job shown as printed without an operator's word was put on paper once under the attempt it shows; a failed, pending or suppressed one never was |
| PrintRuns.RepeatedResult | packages/domain/printing/print-service.ts:477-495 | in every run a result that arrives again, however late, is accepted and changes nothing |
| PrintRuns.OfferedOnlyUnprinted | packages/domain/printing/print-service.ts:523-526 | in every run, what puts the job on offer again finds nothing on paper, and an attempt unstarted or known to have ended before submission |
| PrintRuns.PermittedOnce | packages/domain/printing/print-service.ts:584-612 | in every run a request for permission, however late, succeeds exactly within the lease, for the attempt the job is with, from the one who claimed it, and if that attempt was never permitted before |
| PrintRuns.ResultTakenExactly | packages/domain/printing/print-service.ts:467-495 | in every run a result is taken exactly from the holder of the attempt the job is with, while the job is printing or unknown and has no other result; the job then shows what it says |
| PrintRuns.UpkeepExactly | packages/domain/printing/print-service.ts:499-672 | in every run: which sweep, retry, suppression or operator word the server accepts, and what the job then is |
| PrintRuns.CutOffAfterPrint | apps/print-agent/AgentRunner.cs:430-437 | the bound is met: a run in which an agent is cut off after submitting, its row saying so |
| PrintRunner.EventIsStep | apps/print-agent/AgentRunner.cs:371-518 | what the agent does is a step of the protocol that changes nothing else of that client |
| PrintRunner.AgentRunner.ProcessReceivedJob | apps/print-agent/AgentRunner.cs:371-441 | calls the print exactly when permission was heard, the route is clear and preflight passes, once; leaves the row each answer calls for; its events are a path of the protocol |
| PrintRunner.AgentRunner.HandleJob | apps/print-agent/AgentRunner.cs:347-356 | the offer is written first; afterwards the row is acknowledged exactly when permission was refused or the result taken |
| PrintRunner.AgentRunner.ReconcileRow | apps/print-agent/AgentRunner.cs:471-518 | a restart never prints: an unresolved row is asked for again and then unknown, or unknown, or told as it is recorded |
| PrintTogether.StepIsDeed | apps/print-agent/AgentRunner.cs:371-518 | every step of the protocol is, for any client one watches, one of its events, its request going out, or something it does not notice |
| PrintTogether.AgentPrintsOnce | apps/print-agent/AgentRunner.cs:347-518 | whatever goes on among the handlings and restarts of an agent, its whole record is a run of the protocol in which it is the client it takes itself for, and calls the printer at most once, under a permitted attempt |
| PrintProgress.HandledToItsVerdict | apps/print-agent/AgentRunner.cs:347-461 | from every reachable world with the job on offer an idle agent left alone takes it to its verdict: printed when the printer returns, unknown when it throws, failed when it was not called, with paper and row to match |
| PrintProgress.RestartReports | apps/print-agent/AgentRunner.cs:471-518 | wherever an agent was cut off, while the server still waits for the attempt a restart prints nothing, reports the result on disk or that it does not know, and ends acknowledged |
| PrintProgress.FailedIsOfferedAgain | packages/domain/printing/print-service.ts:499-530 | a job that failed before submission can be put on offer again, and nothing is on paper |
| PrintProgress.UnstartedIsSweptBack | packages/domain/printing/print-service.ts:655-672 | a claim that was never started can be swept back onto the offer |
| PrintProgress.SilenceIsSettled | packages/domain/printing/print-service.ts:655-672 | a submission nobody reports becomes unknown, and an operator who has seen that can settle it |
| CartQueue.FirstInFirstOut | apps/web/lib/waiter-cart-mutations.ts:8-14 | actions run in the order they were enqueued and never overlap |
| CartQueue.PendingMeansUnfinished | apps/web/lib/waiter-cart-mutations.ts:35 | pending is true exactly while some action is unfinished or scheduled |
| CartHistory.WhatRunsIsWhatWasGiven | apps/web/lib/waiter-cart-mutations.ts:8-24 | in every run the chain holds the directly enqueued actions in the order of the calls, and an entry from the n-th call to schedule carries the action of that call |
| CartHistory.FlushRunsWhatStands | apps/web/lib/waiter-cart-mutations.ts:15-28 | once a flush has ended, the action given in each call to schedule before it that nothing cancelled or replaced up to the flush has run exactly once |
| CartHistory.DroppedMeansSuperseded | apps/web/lib/waiter-cart-mutations.ts:15-24 | only a later cancel or schedule under the same id takes a call off the schedule unrun |
| CartHistory.NeverStandsStill | apps/web/lib/waiter-cart-mutations.ts:8-14 | whatever has failed, the first unfinished action can always take its next step, and once none is unfinished every flush can end |
| CartQueue.ThrowsExactly | apps/web/lib/waiter-cart-mutations.ts:25-32 | a flush throws exactly when some action has failed since the last acknowledgement |
| CartQueue.RevisionTells | apps/web/lib/waiter-cart-mutations.ts:8-23 | while the revision stands still nothing is enqueued, scheduled, fired or cancelled |
| CartQueue.CartMutations.BeginFlush | apps/web/lib/waiter-cart-mutations.ts:25-27 | the loop hands over every scheduled action itself, oldest first, behind what is in the chain, and waits for the chain as it then stands |
| CartQueue.CartMutations.ScheduleId | apps/web/lib/waiter-cart-mutations.ts:15-24 | replaces what was scheduled under the id, moves the revision and waits as the newest |
| CartQueue.CartMutations.EndFlush | apps/web/lib/waiter-cart-mutations.ts:28-32 | a flush throws when a failure stands, and acknowledges it if asked to |
| CartQueue.CartMutations.AfterSettled | apps/web/lib/waiter-cart-mutations.ts:11-12 | a settled action first leaves its failure, then the count |
| CartCreation.AddsMakeOneRowEach | packages/domain/orders/order-service.ts:181-201 | however often and in whatever order adds are repeated, each mutation makes one row, and to each the server is as if the others were not there |
| CartCreation.ConvergesExactly | apps/web/lib/waiter-local-draft.ts:86-147 | in every run a line that settles as confirmed leaves one row with the latest intent if and only if the last quantity change that took effect before the settling step was completely answered, or asked for what the client knew, or a later one took effect; a removed line leaves none |
| CartCreation.StaleExactly | apps/web/lib/waiter-local-draft.ts:120-130 | in every run, while the row stands, what the client knows of it is out of date if and only if there is such a change |
| CartCreation.Converges | apps/web/lib/waiter-local-draft.ts:86-147 | so with every quantity change that takes effect completely answered, a settled line leaves one row with the latest intent, or none, despite lost adds and removals, failures and retries |
| CartCreation.RollbackIsClean | apps/web/lib/waiter-local-draft.ts:133-136 | a refused add is off the screen, and the server has no row for it exactly when no earlier attempt took effect |
| CartCreation.CanAlwaysSettle | apps/web/lib/waiter-local-draft.ts:86-147 | from every reachable unsettled line answers and a retry settle it with its latest intent |
| CartCreation.FailuresLeadOn | apps/web/lib/waiter-local-draft.ts:92-146 | in every run an unheard add is sent once more and then left to be retried, a refused one rolled back, a failed change left to be retried, and a failed removal verified, done exactly if the row is gone |
| CartCreation.ChangesWithinBounds | apps/web/lib/waiter-local-draft.ts:186-193 | a change from nought to fifty becomes the intent, anything above is ignored |
| CartCreation.ShowsTheIntent | apps/web/lib/waiter-local-draft.ts:186-193 | while unsettled the line on the screen shows exactly the intent |
| CartCreation.LostAnswerRun | apps/web/lib/waiter-local-draft.ts:104-130 | a run that settles at 1 while the server keeps 2 |
| CartCreation.OrphanRun | apps/web/lib/waiter-local-draft.ts:96-136 | a run that rolls the line back while the server keeps its row |
| CartDraft.OneLinePerAdd | apps/web/lib/waiter-local-draft.ts:69-194 | whatever is added, changed, confirmed, failed, reconciled or read, an unsettled add has exactly one line with the intended quantity, or none for zero |
| CartDraft.StepShows | apps/web/lib/waiter-local-draft.ts:105-146 | a new quantity, the server's item, a confirmation or a failure changes just the line of its add, in place, to just that |
| CartDraft.StepTakesOff | apps/web/lib/waiter-local-draft.ts:133-136 | a refused add, or one set to zero, leaves the screen, and no other line does |
| CartDraft.OthersAre | apps/web/lib/waiter-local-draft.ts:69-71 | taking a line off leaves exactly the others, in order |
| CartDraft.ReadAcceptedExactly | apps/web/lib/waiter-local-draft.ts:43-61 | a read is accepted if and only if at its start no add was unsettled, no mutation unfinished, no hold taken and no submit under way, and until its answer none of these begins |
| CartDraft.AcceptedReadIsUndisturbed | apps/web/lib/waiter-local-draft.ts:43-61 | at no moment between the start of an accepted read and its acceptance was anything local under way |
| CartDraft.HoldsBalance | apps/web/lib/waiter-local-draft.ts:62-68 | in every run reads are held back as long as some hold has not been released |
| CartDraft.WaiterLocalDraft.AddChoice | apps/web/lib/waiter-local-draft.ts:148-185 | an unsent line of the same choice is handed back unchanged, otherwise one line and one add appear |
| CartDraft.AddShows | apps/web/lib/waiter-local-draft.ts:148-185 | an add of a choice no unsent line has shows one line of it at the end with quantity one and enqueues itself; otherwise nothing happens |
| CartDraft.WaiterLocalDraft.ChangeQuantity | apps/web/lib/waiter-local-draft.ts:186-194 | a pending line takes the new quantity on record and on the screen, or leaves the screen at zero; out of bounds nothing changes |
| CartDraft.WaiterLocalDraft.TakeRead | apps/web/lib/waiter-local-draft.ts:55-61 | a read replaces the screen whole exactly when the clock accepts it, and otherwise changes nothing |
| CartDraft.WaiterLocalDraft.ReconcileItem | apps/web/lib/waiter-local-draft.ts:72-85 | one line is taken from the server's order, put back in place, or removed |
| CartDraft.ReconcileDoesJustThat | apps/web/lib/waiter-local-draft.ts:72-85 | the line goes where the server has none, is replaced in place where it is shown, and is otherwise put back before the first line the server lists behind it; no other line moves |
| Calendar.ComparableIsDayOrder | packages/shared/promotion-schedule.ts:73-75 | comparing dates as yyyymmdd numbers is comparing days |
| Calendar.DateRoundTrip | packages/shared/promotion-schedule.ts:83-87 | a day has one valid date, and the date leads back to the day |
| Calendar.NextDayIsTomorrow | packages/shared/promotion-schedule.ts:83-87 | the day after is the next date of the calendar |
| Calendar.MonthLengths | packages/shared/promotion-schedule.ts:83-87 | the months have 31 and 30 days in turn, starting over in August, and February what is left of the year |
| Calendar.WeekdaysFollow | packages/shared/promotion-schedule.ts:40-66 | 1 January 1970 was a Thursday, and weekdays follow one another by seven |
| Schedule.InstantRoundTrip | packages/shared/promotion-schedule.ts:110-135 | the wall clock at a zoned instant shows its day and minute |
| Schedule.InstantsCountFromEpoch | packages/shared/promotion-schedule.ts:110-135 | instants count milliseconds from midnight of 1 January 1970 in UTC, and a zone further east reaches a wall clock earlier |
| Schedule.ActiveExactly | packages/shared/promotion-schedule.ts:157-176 | a rule is active exactly from the start of its start date to the end of its end date while the window of some day of a chosen weekday is open, from its start minute up to its end minute that day or the day after |
| Schedule.NextOccurrence | packages/shared/promotion-schedule.ts:194-205 | the loop over start days finds the first occurrence after the instant, or there is none at all |
| Schedule.NextScheduleBoundary | packages/shared/promotion-schedule.ts:186-224 | returns the first start, end or date edge of the rule after the instant, and nothing where the rule is over or empty |
| Schedule.BoundaryIsSound | packages/shared/promotion-schedule.ts:157-224 | the boundary is strictly later and activeness is constant up to it; without one it is constant forever |
| Promotions.OverIsStrictTotal | packages/shared/promotion-schedule.ts:236-246 | the order of preference is a strict total order on ranks |
| Texts.BeforeMeans | packages/shared/promotion-schedule.ts:236-246 | of two ids the first is decided by the first character in which they differ, or by which ends sooner |
| Promotions.WinnerIsFirst | packages/shared/promotion-schedule.ts:247-262 | the winner is a running candidate that no running candidate is preferred to, and there is one exactly when any runs |
| Promotions.WinnerOrderFree | packages/shared/promotion-schedule.ts:247-262 | any order of the same candidates with distinct ids per level gives the same winner |
| Promotions.WinnerIsPromotion | apps/web/lib/promotion-preview.ts:51-58 | there is a winner exactly when some running promotion covers the item or its category, and it is one of them that yields to no other by target, priority, creation and id |
| Promotions.PreviewEffectivePrice | apps/web/lib/promotion-preview.ts:39-68 | the loop over rules collects item and category candidates; the price is the winner's unless it would be higher |
| Promotions.PreviewShows | apps/web/lib/promotion-preview.ts:46-67 | the price never exceeds the regular one; without a winner it is that; a percentage comes off the base alone, a fixed price replaces the base, the modifiers come on top; the promotion is shown exactly when its price is not above |
| Promotions.OneExactPrice | apps/web/lib/promotion-preview.ts:60-62 | under every winner there is exactly one price before rounding |
| Promotions.PercentagesFall | apps/web/lib/promotion-preview.ts:61-64 | no percentage leaves the regular price, a full one the modifiers, and a higher one never costs more |
| Promotions.BadgeMeansWinner | apps/web/lib/promotion-preview.ts:71-78 | the badge is lit exactly when a promotion wins |
| Promotions.MsUntilNextPromoBoundary | apps/web/lib/promotion-preview.ts:86-95 | the delay is positive, ends on a moment of some rule, and no rule changes before it; without a delay none ever does |
| Promotions.PreviewHolds | apps/web/lib/promotion-preview.ts:39-95 | winner and price are constant until the delay is over |
| Promotions.ClockShowsTheTruth | apps/web/lib/promotion-preview.ts:104-127 | the one-timer clock shows at every instant what evaluating at that instant would |
| Kds.MergeStationOrders | apps/web/lib/kds-state.ts:49-82 | the loops over orders and items come to the merge |
| Kds.OrderReads | apps/web/lib/kds-state.ts:62-81 | an order is handed back as the same object exactly when it would read as before |
| KdsShown.ScreenExactly | apps/web/lib/kds-state.ts:43-82 | an order is shown if and only if one of its items is marked or submitted, accepted or preparing; its items are those the poll lists there and those a write holds that the poll misses, each reading as its write or else the poll says |
| KdsShown.NewWorkIsShown | apps/web/lib/kds-state.ts:43-82 | every item the poll lists as submitted, accepted or preparing, and no write holds, is shown under its order |
| Kds.UnprotectedFollowsPoll | apps/web/lib/kds-state.ts:62-78 | an item no write protects is in a shown order exactly when the poll has it there, with the poll's fields |
| Kds.PendingShownOnce | apps/web/lib/kds-state.ts:56-78 | an item with a pending write is shown under its order with the write's status and mark, and under no other exactly when the poll lists it under no other |
| Kds.MergeIsFixpoint | apps/web/lib/kds-state.ts:49-82 | merging the same poll again hands back the very same objects in the same order |
| Snapshot.ShareIsFaithful | apps/web/lib/waiter-snapshot.ts:5-22 | the result reads as the next snapshot, and is the previous object exactly when the two are deeply equal |
| Snapshot.UnchangedIsShared | apps/web/lib/waiter-snapshot.ts:5-22 | whatever stands unchanged at a path is, or lies within, a previous object |
| Snapshot.ShareWaiterSnapshot | apps/web/lib/waiter-snapshot.ts:5-22 | the recursion with its loops over items and keys computes that sharing |
| Selection.SameMeansMultiset | apps/web/lib/order-cart.ts:19-23 | sorting and comparing decides equality as multisets, deleted options left aside |
| Selection.GroupsConserve | apps/web/lib/waiter-table-memory.ts:6-17 | the groups are pairwise non-matching, cover every eligible line, have the summed quantity and latest time of their choice, and conserve the total |
| Selection.SelectionsGather | apps/web/lib/waiter-table-memory.ts:6-17 | one entry for each item with the same options that some line without note and with all its options still there has, no two alike, each with everything ordered of it and when it was last ordered |
| Selection.SelectionsOf | apps/web/lib/waiter-table-memory.ts:7-17 | the loop that joins or appends comes to these groups |
| PinLockout.GuessesAreBounded | packages/auth/pin-auth.ts:47-83 | in a run without success at most five wrong PINs are looked at per started quarter of an hour |
| PinLockout.BoundIsMet | packages/auth/pin-auth.ts:47-83 | for every duration some run looks at exactly that many |
| PinLockout.RightPinOpens | packages/auth/pin-auth.ts:47-83 | in every run the right PIN opens exactly when every wrong PIN that set a lock lies a quarter of an hour back, and then clears all failures |
| PinLockout.FifthWrongLocks | packages/auth/pin-auth.ts:47-83 | of wrong PINs in a row the fifth locks, for a quarter of an hour, and no earlier one |
| PageHeight.Size | apps/print-agent/Printing.cs:351-363 | at most four heights are tried, none below the content, stopping at the first that fits; none is found exactly when the driver does not take one of them to within two hundredths of an inch |
| PageHeight.Print | apps/print-agent/Printing.cs:294-392 | the document is submitted exactly when the printer is ready, every height up to the stop was taken, the image fits and it is no dry run; what throws before is a failure before submission, what throws after is unknown |
| PageHeight.ShortfallShrinks | apps/print-agent/Printing.cs:361-362 | for a margin a + h/q the shortfall shrinks by a factor of about q per attempt |
| PageHeight.TallTicketFits | apps/print-agent/Printing.cs:351-369 | for q of at least 2 and a first shortfall of at most q, the ticket fits within the four attempts |

## Left out

- BillRuns.BooksHoldExactly: holds for payments that name no draft row at the lock, because the code does not refuse them; the exact reach of the shares without that is in `BillLaws.ShareStaysWithin`.
- BillCover.CoverHoldsExactly: is stated for runs in which writes land in time; a late one changes what is due as `BillLate` shows.
- BillSettlement.SplitRefinesWhole: the tax of split payments is each rounded on its own, so it agrees with the whole bill's only up to half a hundredth per payment; the pre-tax net agrees exactly.
- BillStore.OrderStore.PaySplitBill: assumes the request's row ids are distinct per order, as the database's keys are; receipts, audit entries, events and the tax breakdown are not part of the state.
- BillStore.OrderStore.VoidOrderItem: the second read of the order's status inside the transaction and the void's own record are not modelled.
- PageHeight.TallTicketFits: states the fit for drivers that take every requested height and keep a margin of a + h/q that is never negative.
- A submission whose draft row is moved to another table before it lands, and so writes on that table's order.
- Cancelling an abandoned order, and closing an order emptied by a transfer as cancelled, are not steps of `BillDesk`.
- The order of locks between tables and orders, database deadlocks and transaction timeouts.
- Decimal arithmetic beyond two decimals: quotients are exact and rounded once.
- Stock and ingredient rules: only whether they accept, and the quantities they take.
- Who may claim, print or pay: roles, terminals, printer policies and routes are not part of this model; a claim or a start may be refused at any time.
- A reprint asked for by an operator is a new print job.
- Requests of the cart that are processed after their answer was given up for lost.
- The waiter's favorites, quick suggestions and repeating a round: they would add sorting by counters and filters by availability.
- Modifier edits of cart lines and menu availability, beyond an add being refused.
- Daylight saving and named time zones.
- Floating point in prices and page sizes: reals stand for both.
- User interface, hashing, sessions, live events, analytics and reports.
