# TradeX money path, in Dafny

A model of the part of TradeX that decides whether an order reaches a venue and
what its fills do to the account, with proofs about it. Money is whole paisa and
quantities are whole shares; `q2` (half-up to the paisa) is the only rounding.

**The order spine.** `Engine` is the execution engine as a class over its
collaborators (cash ledger, position accountant, fee processor, order manager):
admission gates, idempotency keys, risk, fee gate, durable intent, dispatch, OMS,
booking, completion, cancel, modify, kill switch and the inbound fill door. The
store may refuse any write, the venue may refuse any cancel, and `Env` holds what
one submit meets outside (gates, risk verdict, new order id, venue answer); the
refusals are counted, so that a contract can say what happens when there are none. Its
contracts speak about `Spine`, the engine's memory as one value: `Spine.dfy` says
what a cancel or a halt may do, `Booking.dfy` what a fill does, `Submission.dfy`
how a submit ends, `Endings.dfy` what those endings mean, and `Sessions.dfy` what
whole runs keep. `SpineProtocol` is the same key
discipline as interleaved steps of many threads. `Orders` is the status machine
and the order manager.

**Accounting.** `PositionMath` is the weighted-average position, `Book` the account
it lives in, `CashLedger` the one operation by which a fill moves money,
`LedgerProtocol` and `ConcurrentFills` that operation under concurrent threads,
`Fees` and `FeeAccrual` the capped brokerage, `Recovery` the replay of the log.
`FifoLots`, `Lifecycle` and `Pairings` relate the repository's three accountings
of one fill stream.

**Smaller machines.** `Registry` (instrument tables across reloads),
`RateLimiting`, `BarGrid` and `Resample`, `ValueArea`.

## What the code does not do

Each of these is proved at an input, with the exact condition under which the
property holds.

- A cancel between the side-table stamp and the key's completion lets a retry reach
  the venue a second time. At most one order per id over every run holds if and only
  if the two are one step or no id is submitted twice
  (`SpineProtocol.AtMostOnceExactlyWhen`).
- The synchronous fill door logs before it asks the ledger, so a refused fill stays
  in the log. The book stays its fold if and only if the fill was unpriced, unlogged
  or affordable (`Endings.SynchronousFold`, `Endings.BuyWithoutCash`).
- A synchronous fill that fails after it was priced frees the key of an order the venue
  executed, so a retry places a second one (`Endings.BuyWithoutCash`). One that cannot be
  priced keeps the key reserved, but its order stays stamped with it, and a later cancel
  or halt frees it (`Endings.UnpricedStampFreesTheKey`, `Endings.MarginFillThenCancel`).
  At most one order per key, out of reach of any later cancel, is what a submit leaves if
  and only if its fill was priced, logged, affordable and legal for its order
  (`Endings.FillKeepsAtMostOnce`).
- A failure after the write leaves the first order stamped too, and cancelling it takes
  the key from a retry at work. A cancel takes a reserved key if and only if an order it
  cancels is stamped with it (`Spine.WhenCancelsTakeAKey`,
  `Endings.StaleStampTakesTheKey`).
- The synchronous door remembers a fill without looking whether it knows it, so an
  execution the feed delivered first is logged and booked again
  (`Endings.DeliveredThenAnswered`, `Endings.ShareBookedTwice`). While the table has
  room, no fill is logged twice if and only if its fingerprint was new
  (`Endings.WhenSynchronousFillRepeats`).
- A fill of an order that cannot take it is booked and still frees the key. For a fill
  that moved the book this happens if and only if the order is REJECTED or PENDING, or
  is NEW and the fill would complete it (`Endings.BookedButFree`,
  `Endings.NewOrderFilledWhole`).
- The synchronous door logs outside the ledger lock, so log order and booking order can
  differ. Where the opening balance pays for any two fills, they agree over every schedule
  if and only if every fill is inbound or there is just one
  (`LedgerProtocol.OrdersAgreeExactlyWhen`).
- The affordability proof misses a debit if and only if a buy's fee or a sale's notional
  is negative (`CashLedger.ProofCoversDebits`).
- The rolling counter reads the clock before it takes the lock, and a late reading can
  overfill a window (`RateLimiting.LateCallOverfills`). It overfills some window if and
  only if the retained stamps leave room while some window that the call falls into is
  full (`RateLimiting.WhenLateCallOverfills`). A window that ends no earlier than any
  reading so far never overflows (`RateLimiting.NewestWindowNeverOverflows`).
- A rebuild stops at a fill its order cannot take, which the live engine had logged and
  booked (`Recovery.NewOrderFilledWholeStopsRebuild`). It stops there if and only if the
  live order refused the fill and was neither CANCELLED nor REJECTED
  (`Recovery.WhenAnswerStopsRebuild`, `Recovery.WhenDeliveryStopsRebuild`).
- Replay leaves a cancelled order cancelled where the live door accepts its late fill. A
  rebuild that completes has the logged orders at every point if and only if no logged
  fill moved a cancelled one (`Recovery.LateFillsAreForgotten`,
  `Recovery.OrdersAgreeExactlyWhen`). The recovery comment says the venue never fills
  such an order; the status machine allows it, and the model follows the code. A
  rejected order is left alone by both, since the live door never projects onto it.
- `round_trip_trades` documents its costs per order but charges an order's whole cost on
  each of its fills; the two agree if and only if no costly order fills in pieces
  (`FifoLots.PerFillIsAtLeastPerOrder`, `FifoLots.SplitOrderIsChargedTwice`).
- A reload can return a key to an instrument that had lost it
  (`Registry.CarriedRoundTrips`, `Registry.ReloadCanRevertAKey`).
- 30-minute and hourly bars before 00:15 belong to the previous day
  (`BarGrid.IntradayNestsInDays`).

## Model

| member | source | states |
|---|---|---|
| `Engine.Engine.Session` | execution/src/tradex_execution/engine.py:525-1612 | Any sequence of calls (submits with or without an immediate fill, cancels, modifies, inbound fills, halts, resumes), with a store that may refuse any write and a venue that may refuse any cancel, is a run of the session model, one step per call |
| `Engine.Engine.Perform` | execution/src/tradex_execution/engine.py:525-1612 | One call is one step of that model, reported as it ended; from sound orders it leaves sound orders and no FILLED or REJECTED one changed, unless what it met is improper |
| `Engine.AcknowledgedSession` | execution/src/tradex_execution/engine.py:525-1612 | A new engine whose venue only acknowledges is orderly and tracked after any sequence of calls, whatever the store, the cancels and the risk manager do |
| `Engine.Engine.Submit` | execution/src/tradex_execution/engine.py:525-907 | Ends as `SubmitEnds` says: a write is called not durable only if the store refused one, and a refusal names its reason. It sends exactly when it gets past every gate and write; what the venue may hold is never reported as refused; a receipted order's log is the approval, the intent, the placement, the acknowledgement and its charged fill; sound orders stay sound and final ones as they were, unless it met something improper |
| `Submission.AcknowledgedSubmitSucceeds` | execution/src/tradex_execution/engine.py:575-907 | While the store takes every write, a request with the switch off, gates open, key free, no objection from risk and a tariff is sent; an acknowledgement is what the caller gets, and a throw is unknown unless the source cannot leave the process or says it did not |
| `Submission.NotDurableMeansRefused` | execution/src/tradex_execution/engine.py:658-717 | Every ending that blames a write means the store refused one during that submit |
| `Engine.Engine.CloseGate` | execution/src/tradex_execution/engine.py:542-573 | A halt or a closed gate refuses with its reason and a recorded order before any key is looked at |
| `Engine.Engine.Own` | execution/src/tradex_execution/engine.py:608-907 | A request that owns its key ends as `OwnerEnds` says |
| `Engine.Engine.Reserve` | execution/src/tradex_execution/engine.py:575-606 | A used key is answered from the table with nothing changed; a free one is reserved for this hash |
| `Engine.Engine.Admit` | execution/src/tradex_execution/engine.py:608-717 | Goes on only past risk and the tariff, having logged exactly the approval, if any, and then the intent; every stop frees the key, and one that blames a write means a refused write |
| `Engine.Engine.AskRisk` | execution/src/tradex_execution/engine.py:608-684 | An error of risk, or an approval the store refused, frees the key; a denial also records a REJECTED order; going on has logged the approval if there was one |
| `Engine.Engine.Deny` | execution/src/tradex_execution/engine.py:625-648 | A denial frees the key before it is logged, leaves a REJECTED order in the OMS, and unless a write was refused logs the verdict and then the order |
| `Engine.Engine.Intend` | execution/src/tradex_execution/engine.py:685-717 | A product without a tariff is refused with a receipt; the intent is logged, or the store refused it; both stops free the key |
| `Engine.Engine.Commit` | execution/src/tradex_execution/engine.py:709-717 | Either exactly that event is appended and the submit goes on, or the store refused it, the key is free and the submit stops |
| `Engine.Engine.RejectIntake` | execution/src/tradex_execution/engine.py:388-425 | Releases only the key it was given, records and logs a REJECTED order that no later halt changes, and under a halt touches no other key |
| `Engine.Engine.Dispatch` | execution/src/tradex_execution/engine.py:718-907 | The request is sent exactly once, with the intent as the last thing in the durable log, and the answer settles the key |
| `Engine.Engine.ActOnThrow` | execution/src/tradex_execution/engine.py:720-816 | A throw is unknown unless the source proved nothing left the process; only then is the key freed |
| `Engine.Engine.FileUnknown` | execution/src/tradex_execution/engine.py:771-799 | An unknown outcome halts the engine and keeps the key; the order is in the OMS as UNKNOWN unless the halt cancelled it, and in the log unless a write was refused |
| `Engine.Engine.FileOrder` | execution/src/tradex_execution/engine.py:776-799 | The order is recorded, its placement logged if the store takes it, and the engine halted |
| `Engine.Engine.Place` | execution/src/tradex_execution/engine.py:818-855 | The stamp is written only after both durable writes; a failed one keeps the key reserved and unstamped |
| `Engine.Engine.Note` | execution/src/tradex_execution/engine.py:776-783 | An order is cached and its snapshot logged, or the store refused it and only cancels happened since |
| `Engine.Engine.Accept` | execution/src/tradex_execution/engine.py:818-907 | How a request ends once the venue took the order |
| `Submission.AcceptedIsOwned` | execution/src/tradex_execution/engine.py:818-907 | Which is a proper ending of the whole request, reported as having reached the venue |
| `Engine.Engine.Fulfil` | execution/src/tradex_execution/engine.py:857-907 | A stamped order is acknowledged, or its fill is settled |
| `Engine.Engine.Acknowledge` | execution/src/tradex_execution/engine.py:883-897 | An acknowledgement completes the key with the very receipt returned |
| `Engine.Engine.Settle` | execution/src/tradex_execution/engine.py:857-882 | A fill at submit is booked and then completed, or fails and frees the key; an unpriceable one moves nothing and leaves the order stamped with a reserved key |
| `Engine.Engine.Execute` | execution/src/tradex_execution/engine.py:950-1005 | Log, book, project, remember, publish: the fill is booked once although its event is delivered back to the engine |
| `Engine.Engine.LogAndBook` | execution/src/tradex_execution/engine.py:962-984 | The event is logged before anything moves; then the charge is refused exactly when the ledger cannot pay, moving nothing but staying in the log |
| `Engine.Engine.Publish` | execution/src/tradex_execution/engine.py:985-991 | The engine's own subscriber skips the event it just published: only the fingerprint table changes |
| `Engine.Engine.Complete` | execution/src/tradex_execution/engine.py:992-1005 | The key is completed last, with the filled order's receipt |
| `Engine.Engine.ApplyInbound` | execution/src/tradex_execution/engine.py:1123-1263 | Skips exactly the retained fingerprints and then exactly the rejected orders; otherwise refuses whole exactly when unaffordable, fails to log because the store refused, lands whole, or is left half applied with the position booked and a debit refused |
| `Engine.Engine.Land` | execution/src/tradex_execution/engine.py:1190-1232 | Refused exactly when unaffordable, before any trace; else logged, remembered and booked together |
| `Engine.Engine.Absorb` | execution/src/tradex_execution/engine.py:1226-1258 | A logged fill is remembered, booked whole or left half booked, and projected or refused by its order |
| `Engine.Engine.Project` | execution/src/tradex_execution/engine.py:1233-1258 | A known order advances, an unknown one is recorded as filled, and an illegal fill leaves the OMS alone |
| `Engine.Engine.Price` | execution/src/tradex_execution/engine.py:1165-1175 | The recorded fee wins, a projecting venue charges nothing, and quoting advances the accrual whatever follows |
| `Engine.Engine.Append` | execution/src/tradex_execution/engine.py:339-372 | Either exactly this event is added, or nothing but cancels happened; under a requirement to be durable a failed write leaves the engine halted, and the mutual recursion with the halt terminates |
| `Engine.Engine.Trip` | execution/src/tradex_execution/kill_switch.py:130-165 | On return every order is terminal or reported; a reported one is untouched, and the venue declined a cancel or it could not be cancelled; no fill, position, cash, fee or fingerprint moved |
| `Engine.Engine.CancelOrder` | execution/src/tradex_execution/engine.py:1456-1513 | Flips an open order only with the venue's consent and hands back the key its submit stamped; it fails only if there is nothing to cancel or the venue declined; unless a write was refused it logs the intent and then the cancelled order |
| `Engine.Engine.SettleCancel` | execution/src/tradex_execution/engine.py:1492-1508 | The order is cancelled and unstamped, and beyond that only cancels happened |
| `Engine.Engine.Cancel` | execution/src/tradex_execution/engine.py:1422-1513 | Under its own key: done completes it with the cancelled order and logs both events, failure means nothing to cancel or a venue that declined and frees it, a repeat is answered from the table |
| `Engine.Engine.Withdraw` | execution/src/tradex_execution/engine.py:1456-1513 | The order is cancelled and the cancel's key completed with it, or nothing is and the key is freed |
| `Engine.Engine.Modify` | execution/src/tradex_execution/engine.py:1515-1612 | Only a working order with room, after risk and the venue agreed, gets the request's quantity, price and legs and keeps everything else; it fails only for those reasons, changes no order and frees the key |
| `Engine.Engine.Rework` | execution/src/tradex_execution/engine.py:1549-1612 | The order gets the new terms and the key is completed with it, or no order changes and the key is freed |
| `Submission.FailedExecution` | execution/src/tradex_execution/engine.py:866-875 | A failed synchronous fill ends with the key free, the book as each failure leaves it and, once logged, the order still stamped; an unaffordable ending is an unaffordable charge |
| `Submission.SuccessfulExecution` | execution/src/tradex_execution/engine.py:984-1005 | A successful one ends logged, booked once, remembered and completed |
| `Endings.NoStrandedKey` | execution/src/tradex_execution/engine.py:542-907 | A request that found its key free leaves it reserved only where the venue may hold the order, completed only with the receipt it returned, else free; a free key with the book moved means an order that could not take its fill |
| `Endings.BookedButFree` | execution/src/tradex_execution/engine.py:857-875 | A fill that moved the book leaves the key free if and only if the order could not take it: REJECTED, PENDING, or NEW and completed by the fill |
| `Endings.NewOrderFilledWhole` | execution/src/tradex_execution/engine.py:985 | A NEW order filled whole: book moved, key free |
| `Endings.NeverHalfApplied` | execution/src/tradex_execution/engine.py:857-875 | A synchronous fill with a size and a price is never left half applied, because a quoted fee is never negative |
| `Endings.SynchronousFold` | execution/src/tradex_execution/engine.py:962-984 | The synchronous door keeps the book the fold of the log if and only if the fill was not priced, was not logged, or was affordable on the balance it met |
| `Endings.WhenAnswerIsUnaffordable` | execution/src/tradex_execution/cash_ledger.py:183-186 | A priced and logged synchronous fill is refused by the ledger exactly when the floor is on and the cash is below notional and fee of a buy, or the fee of a sale |
| `Endings.UnpricedEnding` | execution/src/tradex_execution/engine.py:853-864 | Every fill that cannot be priced has an ending in which its order is stamped and its key still reserved |
| `Endings.UnaffordableEnding` | execution/src/tradex_execution/engine.py:866-875 | Every priced charge the ledger cannot pay for has one in which it is logged and the key freed |
| `Endings.UnprojectableEnding` | execution/src/tradex_execution/engine.py:866-875 | Every affordable fill of an order that cannot take it has one in which it is booked and the key freed |
| `Endings.AbsorbedEnding` | execution/src/tradex_execution/engine.py:962-1005 | Every affordable fill its order can take, remembered before or not, has one in which it is booked and the key completed |
| `Endings.BuyWithoutCash` | execution/src/tradex_execution/engine.py:962-984 | A 100-paisa purchase out of 99 paisa: logged, not booked, and the key free although the venue executed the order |
| `Endings.SendingIsAtMostOnce` | execution/src/tradex_execution/engine.py:718-722 | One send under a free key keeps at most one order per key if and only if the venue surely holds nothing or the key is taken afterwards |
| `Endings.FillKeepsAtMostOnce` | execution/src/tradex_execution/engine.py:857-882 | A submit whose answer carries a fill keeps it if and only if the fill could not be priced or was absorbed (priced, logged, affordable, legal for its order), and keeps it with every stamped key completed if and only if it was absorbed |
| `Endings.StaleStampTakesTheKey` | execution/src/tradex_execution/engine.py:1506-1510 | After a logged failure the stamp stays; once a retry reserves the key, cancelling the first order takes it from the retry |
| `Endings.UnpricedStampFreesTheKey` | execution/src/tradex_execution/engine.py:1506-1510 | After an unpriced fill the key is reserved and its order stamped with it; cancelling that order frees the key, and the venue then holds an order under a free one |
| `Endings.MarginFillThenCancel` | execution/src/tradex_execution/engine.py:853-864 | One share filled under a margin product, then cancelled: at most once before the cancel, not after it |
| `Endings.DroppingFreesTheKey` | execution/src/tradex_execution/engine.py:1506-1510 | Cancelling an order stamped with a reserved key is a cancel and frees that key |
| `Endings.WhenSynchronousFillRepeats` | execution/src/tradex_execution/engine.py:985-991 | While the table has room, a fill answered at once leaves the log free of repeats, and tracked, if and only if its fingerprint was not retained |
| `Endings.DeliveredThenAnswered` | execution/src/tradex_execution/engine.py:985-991 | An execution the feed delivered and the submit then answered is logged and booked twice, if it can be paid for and the order can take it |
| `Endings.EveryFillBookedTwice` | execution/src/tradex_execution/engine.py:985-991 | On a new engine without fees or a floor this happens to every fill its order can take, although its fingerprint is retained in between |
| `Endings.ShareBookedTwice` | execution/src/tradex_execution/engine.py:985-991 | One share, delivered and answered as the same trade, logged twice |
| `Endings.BookingMoves` | execution/src/tradex_execution/engine.py:1064-1106 | An executed fill always changes the book |
| `Sessions.RunIsOrderly` | execution/src/tradex_execution/engine.py:525-1612 | Every run whose immediate fills were priced, affordable, legal and logged stays orderly at every point: the book is the fold of the log, every stamped order's key is completed, the venue may hold at most one order under any key and none under a free one, no order accrues past its cap |
| `Sessions.RunIsTracked` | execution/src/tradex_execution/engine.py:985-1159 | Where each of them was also new when it was answered, no fill is logged twice until the fingerprint table overflows |
| `Sessions.RunUpholdsOrders` | execution/src/tradex_execution/order_manager.py:35-74 | Over any stretch of a run that starts with sound orders and meets only sized requests and fills, sound venue orders and ids of no final order, every cached order stays sound and FILLED and REJECTED ones never change |
| `Sessions.RunMirrorsOrders` | execution/src/tradex_execution/engine.py:339-372 | Over any run in which the store took every write and the ledger refused no logged fill, the orders in the OMS are what the log says |
| `Sessions.AcknowledgedRunIsOrderly` | execution/src/tradex_execution/engine.py:525-1612 | So every run against a venue that only acknowledges is orderly and tracked |
| `Sessions.RunKeepsCompleted` | execution/src/tradex_execution/engine.py:374-386 | No run, whatever its fills, ever loses or changes a completed key |
| `Sessions.RetryIsReplayed` | execution/src/tradex_execution/engine.py:575-606 | After any run a retry of a receipted request returns the same receipt, reaches no venue and changes nothing |
| `Sessions.ReceiptBindsEverAfter` | execution/src/tradex_execution/engine.py:883-897 | After a receipted submit, over any rest of the run, its key stays bound to that very request and receipt |
| `Sessions.OtherRequestIsRefused` | execution/src/tradex_execution/engine.py:575-606 | A different request under that key is refused after any run, with nothing changed |
| `Sessions.ReservedKeyAnswers` | execution/src/tradex_execution/engine.py:575-606 | While a key is reserved its own request is told to wait and any other is refused, with nothing changed |
| `Sessions.SubmitIsOrderly` | execution/src/tradex_execution/engine.py:525-907 | A fitting submit keeps the session orderly |
| `Sessions.MutationIsOrderly` | execution/src/tradex_execution/engine.py:1422-1612 | So does a cancel or a modify |
| `Sessions.ReceivingIsOrderly` | execution/src/tradex_execution/engine.py:1123-1263 | So does an inbound fill with a size, a price and no negative fee |
| `Sessions.SubmitIsTracked` | execution/src/tradex_execution/engine.py:525-1005 | A fitting submit whose fill was first seen logs nothing twice |
| `Sessions.TakenFillIsSettled` | execution/src/tradex_execution/engine.py:950-1005 | An immediate fill that can be taken, once logged, is booked and completed |
| `Booking.ReceivingFolds` | execution/src/tradex_execution/engine.py:1147-1232 | However the inbound door ends, short of a half-applied fill, the book is still the fold of the log |
| `Booking.ReceivingTracks` | execution/src/tradex_execution/engine.py:1152-1159 | Until the fingerprint table overflows, every logged fill is retained and none is logged twice |
| `Booking.ReceivingEchoes` | execution/src/tradex_execution/engine.py:1147-1258 | Short of a half-applied fill, a delivery leaves the orders as the log tells them |
| `Submission.ExecutingEchoes` | execution/src/tradex_execution/engine.py:962-991 | So does a synchronous fill of its own order, unless the ledger refused it |
| `Booking.WhenDeliveryIsUnaffordable` | execution/src/tradex_execution/cash_ledger.py:183-186 | A delivery that reached the ledger is refused exactly when the floor is on and the cash is below notional and fee of a buy, or the fee of a sale |
| `Booking.HalfBookedIsNegative` | execution/src/tradex_execution/cash_ledger.py:183-202 | Half applied takes a negative fee or a negative notional |
| `Booking.JustRemembered` | execution/src/tradex_execution/idempotency.py:176-190 | A fingerprint just recorded is retained exactly when the table has room for one |
| `Spine.RecentlyUsedSurvive` | execution/src/tradex_execution/idempotency.py:163-190 | A fingerprint just used outlasts as many others as the table has room for, less one |
| `Spine.WhenFillsAreOne` | execution/src/tradex_execution/idempotency.py:151-161 | Two fills are taken for one exactly when they carry one trade id, or neither carries any and order, side, size and price agree |
| `Spine.OnlyCancelsTransitive` | execution/src/tradex_execution/engine.py:1422-1513 | Cancels compose: any number of them only cancel open orders and hand back stamped keys |
| `Spine.CancelsKeepSettled` | execution/src/tradex_execution/engine.py:1506-1510 | Where every stamped key is completed, no cancel frees a key |
| `Spine.WhenCancelsTakeAKey` | execution/src/tradex_execution/engine.py:1506-1510 | Cancels take a reserved key away if and only if an order they cancelled was stamped with it |
| `Spine.HaltingStep` | execution/src/tradex_execution/kill_switch.py:154-165 | One turn of the halt loop keeps every order terminal, still to do, or reported untouched |
| `SpineProtocol.VenueTakesAtMostOne` | execution/src/tradex_execution/engine.py:575-606 | Over every interleaving of submits, retries, cancels, modifies and halts, with arbitrary store and venue failures, the venue takes at most one order per correlation id, and none under a free one, when stamp and completion are one step |
| `SpineProtocol.NoKeyIsStranded` | execution/src/tradex_execution/engine.py:374-386 | Over every interleaving, stamp and completion as one step or two, a key stays reserved only while its request is at work or because it may have reached the venue |
| `SpineProtocol.SplitSpanAllowsTwo` | execution/src/tradex_execution/engine.py:853-897 | With stamp and completion as two steps, a cancel in between lets a retry place a second order |
| `SpineProtocol.AtMostOnceExactlyWhen` | execution/src/tradex_execution/engine.py:853-897 | At most one order per id over every run if and only if the span is one step or no id is submitted twice |
| `Orders.OmsInvariant` | execution/src/tradex_execution/order_manager.py:35-74 | Over every run of fills, cancels, rejects, acknowledgements and modifies: filled stays within quantity and never falls, FILLED means filled, FILLED and REJECTED are final, a bracket stays one, instrument and side never change |
| `Orders.WhenOrdersMove` | domain/src/tradex_domain/execution.py:25-65 | The status machine read backwards: which statuses each status can be reached from, and that nothing else of the order changes |
| `Orders.FilledIsCappedSum` | execution/src/tradex_execution/order_manager.py:38-52 | An unmodified order has filled the lesser of its quantity and its accepted fills |
| `Orders.WhenFillsAreRefused` | domain/src/tradex_domain/execution.py:25-65 | A fill is refused exactly for a REJECTED or PENDING order, or a NEW one it would complete |
| `Orders.OpenMeansCancellable` | execution/src/tradex_execution/kill_switch.py:58-62 | The orders the halt must reach are exactly those the status machine can cancel |
| `Orders.OrderManager.OnOrderFilled` | execution/src/tradex_execution/order_manager.py:35-67 | Caches the order after the clamped fill, or refuses and caches nothing |
| `Orders.OrderManager.OnOrderCancelled` | execution/src/tradex_execution/order_manager.py:69-74 | Caches the cancelled order, or refuses and caches nothing |
| `CashLedger.ProofCoversDebits` | execution/src/tradex_execution/cash_ledger.py:183-202 | The affordability proof covers the debits at every balance if and only if a buy's fee, or a sale's notional, is not negative |
| `CashLedger.WhenShort` | execution/src/tradex_execution/cash_ledger.py:183-186 | The proof asks for the notional and fee of a buy and for the fee of a sale |
| `CashLedger.CashLedger.ApplyFill` | execution/src/tradex_execution/cash_ledger.py:146-202 | Refused exactly when the floor is on and the cash is below notional and fee of a buy, or the fee of a sale, and then unchanged; applied means position, notional and fee all moved; half-applied exactly when the proof passed and a debit did not |
| `CashLedger.CashLedger.RequireDebit` | execution/src/tradex_execution/cash_ledger.py:116-127 | Proves a debit without moving anything |
| `CashLedger.CashLedger.Debit` | execution/src/tradex_execution/cash_ledger.py:90-97 | Moves the amount or, below the floor, nothing |
| `CashLedger.PositionAccountant.Book` | execution/src/tradex_execution/engine.py:1064-1075 | The fill, then its fee, on its own instrument |
| `LedgerProtocol.NoInterleavingOverdraws` | execution/src/tradex_execution/cash_ledger.py:183-202 | In no interleaving of threads through either door does a debit fail after its proof passed, and with the floor on cash is never negative at any step |
| `LedgerProtocol.FillsAreSerializable` | execution/src/tradex_execution/engine.py:1077-1106 | Whenever the lock is free the account is that of the applied fills run one by one; each is booked once and logged first; a refused one books nothing, and on the inbound door is not logged |
| `LedgerProtocol.LogAndBookOrderCanDiffer` | execution/src/tradex_execution/engine.py:962-984 | The synchronous door logs outside the lock, so a fill of either door can be logged after it and booked before it, wherever the opening balance pays for both |
| `LedgerProtocol.BookedAsLogged` | execution/src/tradex_execution/engine.py:1176-1232 | With only inbound fills, or a single fill, booking order is log order whenever the lock is free, over every schedule |
| `LedgerProtocol.OrdersAgreeExactlyWhen` | execution/src/tradex_execution/engine.py:962-984 | Where the opening balance pays for any two fills, the two orders agree over every schedule if and only if every fill is inbound or there is just one |
| `ConcurrentFills.ConcurrentBookIsSerial` | execution/src/tradex_execution/cash_ledger.py:146-202 | The same with the real position arithmetic: the concurrent book is the book of a serial run |
| `ConcurrentFills.CashIgnoresOrder` | execution/src/tradex_execution/cash_ledger.py:183-202 | Cash and fees do not depend on booking order |
| `ConcurrentFills.OrderChangesRealized` | domain/src/tradex_domain/position_math.py:134-146 | Positions do: one pair of fills books differently in the two orders |
| `Recovery.Rebuild` | execution/src/tradex_execution/recovery.py:229-320 | One pass over the log computes the replay fold |
| `Recovery.OrderTotals` | execution/src/tradex_execution/recovery.py:107-114 | Each order's quantity from its first snapshot |
| `Recovery.FirstSnapshotCounts` | execution/src/tradex_execution/recovery.py:107-114 | An order's total is the quantity of the first event that carries it, whichever of the five it is |
| `Recovery.WhenIdentitiesAreOne` | execution/src/tradex_execution/recovery.py:147-158 | Two logged fills have one identity exactly when they carry one non-empty trade id, or neither carries any and order, side, size and price agree |
| `Recovery.WhenFillsAreSkipped` | execution/src/tradex_execution/recovery.py:117-144 | A fill is skipped exactly when one of its identity was applied and, unless a trade id says so, its order is unknown or the shares applied leave no room for it |
| `Recovery.DistinctFillsReplay` | execution/src/tradex_execution/recovery.py:117-226 | Distinct fills without negative fees are all replayed exactly as they were booked |
| `Recovery.RebuiltBookIsLive` | execution/src/tradex_execution/recovery.py:229-320 | After any orderly, tracked session that has not outgrown its fingerprint table, a completed rebuild returns the live book |
| `Recovery.WhenRebuildCompletes` | execution/src/tradex_execution/recovery.py:295-307 | A rebuild completes if and only if no fill of the log is refused by its rebuilt order |
| `Recovery.WhenReplayRefuses` | execution/src/tradex_execution/recovery.py:295-304 | Which is a known order that is PENDING, or NEW and completed by the fill |
| `Recovery.WhenAnswerStopsRebuild` | execution/src/tradex_execution/recovery.py:295-307 | The log of a submit answered with a fill stops the rebuild there, unless it is taken for a re-delivery, if and only if the order could not take the fill and was neither CANCELLED nor REJECTED |
| `Recovery.WhenDeliveryStopsRebuild` | execution/src/tradex_execution/recovery.py:295-307 | A logged delivery stops a rebuild that agrees on its order, unless it is taken for a re-delivery, if and only if the live order refused it and was neither CANCELLED nor REJECTED |
| `Recovery.NewOrderFilledWholeStopsRebuild` | execution/src/tradex_execution/recovery.py:295-307 | The log of a NEW order filled whole cannot be rebuilt |
| `Recovery.CarriersInstall` | execution/src/tradex_execution/recovery.py:278-283 | Each of the five events that carry an order installs it and changes nothing else |
| `Recovery.ReplayedFillAdvances` | execution/src/tradex_execution/recovery.py:289-304 | A replayed fill leaves its order as the order manager would, a cancelled or rejected one as it was, an unknown one recorded as filled, and no other order moved |
| `Recovery.OrdersAgreeExactlyWhen` | execution/src/tradex_execution/recovery.py:272-304 | A rebuild that completes has the logged orders at every point if and only if no logged fill moved a cancelled order |
| `Recovery.RebuiltOrdersAreLive` | execution/src/tradex_execution/recovery.py:229-320 | Over any session from a new engine in which the store took every write, whose logged fills are sized, distinct and never late, a completed rebuild has the live orders |
| `Recovery.LateFillsAreForgotten` | execution/src/tradex_execution/recovery.py:86-89 | The rebuilt order agrees with the one the live door projects if and only if the order is neither cancelled nor rejected |
| `Paisa.Q2` | domain/src/tradex_domain/utils.py:12-19 | The nearest paisa, halves away from zero |
| `PositionMath.ApplyFill` | domain/src/tradex_domain/position_math.py:95-164 | The quantity moves by the signed fill, and the attribution stays with the opener |
| `PositionMath.AddedPosition` | domain/src/tradex_domain/position_math.py:134-138 | A scale-in averages and realizes nothing |
| `PositionMath.ReducedPosition` | domain/src/tradex_domain/position_math.py:139-146 | A reduction keeps the average and realizes the closed part |
| `PositionMath.FlippedPosition` | domain/src/tradex_domain/position_math.py:139-146 | A flip realizes the whole old position and restarts at the fill price |
| `PositionMath.AverageStaysBetween` | domain/src/tradex_domain/position_math.py:134-138 | The average never leaves the old average and the fill price |
| `PositionMath.FillDrift` | domain/src/tradex_domain/position_math.py:108-164 | One fill moves cash plus carrying cost by at most half a paisa per share averaged into, and by nothing when it opens, reduces or flips |
| `PositionMath.DriftIsAttained` | domain/src/tradex_domain/position_math.py:134-138 | The bound is reached |
| `Book.AccountingIdentity` | execution/src/tradex_execution/cash_ledger.py:183-202 | After any run over any instruments, cash plus fees plus carrying value equals opening cash plus gross realized P&L within half a paisa per share averaged into |
| `Book.ChargedPosition` | execution/src/tradex_execution/engine.py:1064-1075 | A charged fill takes its fee off realized P&L and, if there was one, costs the position its strategy; no other position moves |
| `FifoLots.RoundTripTrades` | analytics/src/tradex_analytics/_round_trips.py:144-239 | The loop computes the FIFO pairing of the fills in time order, whose rows `EveryRowIsReported` describes |
| `FifoLots.EveryRowIsReported` | analytics/src/tradex_analytics/_round_trips.py:185-237 | Every row closes an earlier fill with a later one of the same instrument on the other side: their times and prices, no more shares than either, the price difference in the direction of the entry, both fills' rounded cost per share, and gross less costs as net |
| `FifoLots.PairFill` | analytics/src/tradex_analytics/_round_trips.py:186-237 | The body of the loop is one step of the pairing on the fill's own instrument |
| `FifoLots.MatchLots` | analytics/src/tradex_analytics/_round_trips.py:197-227 | The inner loop closes lots from the front while they oppose the fill |
| `FifoLots.CloseConserves` | analytics/src/tradex_analytics/_round_trips.py:198-225 | One close moves exactly its own gross and its own cost |
| `FifoLots.PairingConserves` | analytics/src/tradex_analytics/_round_trips.py:185-237 | Open lots hold the net size, net cash flow plus open-lot cost is the closed gross, and every paisa of per-share cost is on one trade or one lot |
| `FifoLots.LotsStayOneSided` | analytics/src/tradex_analytics/_round_trips.py:197-237 | Open lots are never empty and never face each other |
| `FifoLots.OneSidedSum` | analytics/src/tradex_analytics/_round_trips.py:197-237 | Such lots sum to a quantity on their own side |
| `FifoLots.FirstInFirstOut` | analytics/src/tradex_analytics/_round_trips.py:185-237 | Entries close strictly in the order they were opened |
| `FifoLots.InstrumentsAreIndependent` | analytics/src/tradex_analytics/_round_trips.py:185-195 | Each instrument's lots and trades are what it would have had alone |
| `FifoLots.AttributionRounding` | analytics/src/tradex_analytics/_round_trips.py:191 | Per-share rounding moves the attributed cost by at most half a paisa a share |
| `FifoLots.PerFillIsAtLeastPerOrder` | analytics/src/tradex_analytics/_round_trips.py:191 | Attributing an order's cost to each fill never undercharges, and equals charging it once if and only if no costly order fills in pieces |
| `FifoLots.SplitOrderIsChargedTwice` | analytics/src/tradex_analytics/_round_trips.py:191 | An order filled in two pieces is charged its cost twice |
| `TimeOrder.SortIsStable` | analytics/src/tradex_analytics/_round_trips.py:185 | The sort orders by time, keeps every fill and never swaps equal stamps |
| `Lifecycle.RoundTripsFromFills` | analytics/src/tradex_analytics/_round_trips.py:400-495 | The loop computes the lifecycle pairing of the counted records in time order |
| `Lifecycle.PairFill` | analytics/src/tradex_analytics/_round_trips.py:440-493 | One fill advances its own instrument's lot and no other |
| `Lifecycle.WhenARecordCounts` | analytics/src/tradex_analytics/_round_trips.py:433-445 | A record counts for its instrument exactly when it was not rejected and has a size and a price |
| `Lifecycle.LifecycleSimulatesPosition` | analytics/src/tradex_analytics/_round_trips.py:433-493 | The open lot has the position's quantity and average at every prefix, and trip P&L plus the lot's realized equals the position's realized exactly |
| `Lifecycle.InstrumentsAreIndependent` | analytics/src/tradex_analytics/_round_trips.py:433-445 | Each instrument's lot and trips are what its own fills give alone |
| `Lifecycle.TripsInExitOrder` | analytics/src/tradex_analytics/_round_trips.py:476-493 | Trips come out in exit order |
| `Pairings.QuantitiesAgree` | analytics/src/tradex_analytics/_round_trips.py:185-237 | FIFO lots and the position both hold the net size |
| `Pairings.FifoMatchesAverage` | analytics/src/tradex_analytics/_round_trips.py:185-237 | FIFO gross less open-lot cost tracks the average-cost position within the rounding bound at every prefix |
| `Pairings.FlatHasNoLots` | analytics/src/tradex_analytics/_round_trips.py:197-227 | The instrument is flat if and only if FIFO has no open lot |
| `Pairings.FifoMatchesAverageWhenFlat` | domain/src/tradex_domain/position_math.py:134-146 | At every flat point FIFO gross equals weighted-average realized P&L within half a paisa per share averaged into |
| `Pairings.AllThreeAgreeWithoutScaleIns` | analytics/src/tradex_analytics/_round_trips.py:144-239 | Without scale-ins FIFO, average cost and lifecycle report the same P&L at every flat point |
| `Pairings.TripsAreCompletions` | analytics/src/tradex_analytics/_round_trips.py:465-493 | One trip for each time the running quantity reaches or crosses zero |
| `Pairings.CompletionClosesEveryLot` | analytics/src/tradex_analytics/_round_trips.py:197-227 | A completing fill closes every open FIFO lot |
| `Pairings.TripsNeverOutnumberPortions` | analytics/src/tradex_analytics/_round_trips.py:465-493 | Lifecycle trips never outnumber FIFO portions |
| `Pairings.PromotionCountIsNotFlattered` | analytics/src/tradex_analytics/_round_trips.py:400-495 | Over any common stream of executed fills of any instruments the lifecycle rows never outnumber the FIFO rows |
| `Pairings.CompletedTripRow` | analytics/src/tradex_analytics/_round_trips.py:498-514 | The row of a completing fill: every share of the episode, from its opening to this fill, at the share-weighted exit price, for the P&L the lot had realized plus what the position books on this fill, without costs |
| `Fees.BrokerageBounds` | execution/src/tradex_execution/fees.py:149-173 | Brokerage is the capped exact charge to the nearest paisa |
| `Fees.CappedFeeIsConsistent` | execution/src/tradex_execution/fees.py:357-385 | A fill is charged the brokerage its order has room for, with GST on exactly that, and nothing negative |
| `Fees.GateMeansPriceable` | execution/src/tradex_execution/fees.py:212-242 | The submit gate and the pricing door refuse exactly the same products, and the product the gate names prices the fill alike |
| `FeeAccrual.FeeIsTheBill` | execution/src/tradex_execution/fees.py:75-210 | For every product and side the fee is the sum of brokerage of 0.03% up to Rs 20 as far as the order has room, exchange 0.00345%, regulator 0.0002%, stamp 0.003%, tax of 0.025% on an intraday sale or 0.1% on either side of a delivery, and GST of 18%, each rounded on its own |
| `FeeAccrual.BillIsUnique` | execution/src/tradex_execution/fees.py:149-173 | No other bill qualifies |
| `FeeAccrual.WhenFeesAreRefused` | execution/src/tradex_execution/fees.py:212-242 | A fee is refused exactly for no size, no price, or a margin, MTF or cover product, and then nothing accrues |
| `FeeAccrual.QuoteIsTheFee` | execution/src/tradex_execution/fee_processor.py:34-50 | A quote is the fee on top of its own order's accrual, and moves only that accrual |
| `FeeAccrual.DeliveryPaysTax` | execution/src/tradex_execution/fees.py:176-210 | 100 shares bought at Rs 1000 cost Rs 130.91 for delivery and Rs 30.91 intraday |
| `Fees.AccrualIsCappedSum` | execution/src/tradex_execution/fees.py:357-385 | An order's brokerage is the lesser of the cap and the sum of its partials' |
| `Fees.SplittingMovesBrokerageLittle` | execution/src/tradex_execution/fees.py:357-385 | Splitting into n partials moves total brokerage by at most (n+1)/2 paisa |
| `FeeAccrual.AccrualIsPerOrder` | execution/src/tradex_execution/fee_processor.py:34-50 | However orders interleave, each accrues its own capped brokerage |
| `FeeAccrual.AccrualStaysWithinCap` | execution/src/tradex_execution/fee_processor.py:42-50 | Pricing never passes a cap, is refused exactly for an unscheduled fill and never quotes a negative fee |
| `FeeAccrual.FeeProcessor.ComputeFee` | execution/src/tradex_execution/fee_processor.py:34-50 | Quotes the fee that `FeeIsTheBill` itemises, advances only this order's accrual and counts unlabelled fills |
| `Registry.InstrumentRegistry.Register` | domain/src/tradex_domain/wire.py:146-155 | A key of another instrument is refused with nothing changed; otherwise a reader finds the key, every other key as before, the first key still the provider key, and the fields merged |
| `Registry.InstrumentRegistry.RegisterAuthoritative` | domain/src/tradex_domain/wire.py:157-173 | The key becomes the instrument's only one and its provider key, older ones stop resolving, and its fields are those given |
| `Registry.InstrumentRegistry.DropStale` | domain/src/tradex_domain/wire.py:286-290 | Removes exactly the instrument's other keys that still lead to it |
| `Registry.InstrumentRegistry.AddAlias` | domain/src/tradex_domain/wire.py:175-177 | The alias resolves unless, and only unless, a provider key of that spelling leads elsewhere |
| `Registry.InstrumentRegistry.ReplaceAll` | domain/src/tradex_domain/wire.py:179-231 | Swaps in the master, carrying over what it does not define, and stays consistent |
| `Registry.PutKeepsConsistent` | domain/src/tradex_domain/wire.py:235-267 | Registration keeps the five tables consistent |
| `Registry.PutKeepsLive` | domain/src/tradex_domain/wire.py:235-267 | and every listed key live |
| `Registry.PutRegisters` | domain/src/tradex_domain/wire.py:235-267 | What readers see of a registration: keys, provider key and fields of every instrument |
| `Registry.FirstKeyStays` | domain/src/tradex_domain/wire.py:235-267 | However many registrations follow, an instrument's first key stays its provider key and every key leads where it led |
| `Registry.ReplaceKeepsConsistent` | domain/src/tradex_domain/wire.py:269-294 | So does authoritative registration |
| `Registry.ReplaceKeepsLive` | domain/src/tradex_domain/wire.py:269-294 | and every listed key live |
| `Registry.ReplaceRepoints` | domain/src/tradex_domain/wire.py:269-294 | What readers see of an authoritative registration |
| `Registry.AliasesIgnoreCaseAndBlanks` | domain/src/tradex_domain/wire.py:133-142 | One name in two spellings is one alias |
| `Registry.CarryResolves` | domain/src/tradex_domain/wire.py:207-218 | After a reload a key means what the master says, else the first carried instrument that lists it |
| `Registry.ReloadKeepsConsistent` | domain/src/tradex_domain/wire.py:179-231 | A reload keeps the tables consistent |
| `Registry.MasterHasItsSay` | domain/src/tradex_domain/wire.py:179-231 | Every master key resolves as the master says, and no other key leads to a master instrument |
| `Registry.ReloadReads` | domain/src/tradex_domain/wire.py:179-231 | After a reload an instrument has the master's provider key and fields if the master defines it, else its own |
| `Registry.AliasesAfterReload` | domain/src/tradex_domain/wire.py:219-224 | A name leads where the master says; one the master does not use still leads where it led, if and only if that is no instrument of the master's |
| `Registry.RoundTripIsResolve` | domain/src/tradex_domain/wire.py:123-142 | The round trip is what provider_key followed by resolve does, for a key without surrounding blanks that no alias stands in for |
| `Registry.LiveRoundTrips` | domain/src/tradex_domain/wire.py:123-142 | Live tables round-trip every instrument |
| `Registry.CarriedRoundTrips` | domain/src/tradex_domain/wire.py:207-218 | A carried instrument round-trips if and only if the master did not reassign its key and no earlier carried instrument lists it; with live tables the second part is automatic |
| `Registry.FreshRoundTrips` | domain/src/tradex_domain/wire.py:179-231 | A master instrument round-trips if and only if it does in the master |
| `Registry.ReloadIsLive` | domain/src/tradex_domain/wire.py:207-218 | A reload leaves every key live if and only if the master reassigned no carried key |
| `Registry.ReloadCanRevertAKey` | domain/src/tradex_domain/wire.py:207-218 | Once a master has reassigned a key, a later reload that does not mention it can hand it back |
| `RateLimiting.GrantedIsBounded` | domain/src/tradex_domain/rate_limiting.py:99-166 | Between any two instants the tokens granted are at most burst plus rate times elapsed, through any attempts, cooldowns and reductions by a factor of at most one |
| `RateLimiting.Envelope` | domain/src/tradex_domain/rate_limiting.py:99-166 | Sharper: at most what was available at the first instant plus the refill in between, less what is left |
| `RateLimiting.GrantsAreSpaced` | domain/src/tradex_domain/rate_limiting.py:119-133 | Grants are at least the minimum interval apart and never inside a cooldown |
| `RateLimiting.WhenGranted` | domain/src/tradex_domain/rate_limiting.py:99-133 | An attempt is granted exactly when the cooldown is over, the last grant is far enough back, and burst and tokens with the inflow both reach |
| `RateLimiting.WhatAnAttemptLeaves` | domain/src/tradex_domain/rate_limiting.py:99-133 | The tokens with the inflow, up to the burst, less those granted |
| `RateLimiting.IdleBucketGrants` | domain/src/tradex_domain/rate_limiting.py:99-133 | An open bucket left alone for what is missing over the rate grants whatever its burst allows |
| `RateLimiting.ReducedRateBinds` | domain/src/tradex_domain/rate_limiting.py:158-161 | From a reduction on, the reduced rate bounds the grants |
| `RateLimiting.TokenBucketRateLimiter.TryAcquire` | domain/src/tradex_domain/rate_limiting.py:122-133 | Grants exactly when open and affordable, and is one step of the model |
| `RateLimiting.TokenBucketRateLimiter.Acquire` | domain/src/tradex_domain/rate_limiting.py:135-156 | A run of attempts of which only the last may be granted |
| `RateLimiting.TokenBucketRateLimiter.Turn` | domain/src/tradex_domain/rate_limiting.py:135-156 | One turn of the wait is one attempt; it fails fast only while cooling and times out only past the deadline |
| `RateLimiting.TokenBucketRateLimiter.Refill` | domain/src/tradex_domain/rate_limiting.py:99-103 | Tokens at the new instant, up to the burst |
| `RateLimiting.TokenBucketRateLimiter.ReduceRate` | domain/src/tradex_domain/rate_limiting.py:158-161 | One reduction of the model |
| `RateLimiting.TokenBucketRateLimiter.TriggerCooldown` | domain/src/tradex_domain/rate_limiting.py:163-166 | One cooldown of the model |
| `RateLimiting.RollingWindowCounter.Record` | domain/src/tradex_domain/rate_limiting.py:191-199 | One call with a clock reading of any age: accepted exactly when the pruned deque has room, and recorded |
| `RateLimiting.RollingWindowCounter.Prune` | domain/src/tradex_domain/rate_limiting.py:186-189 | Drops from the front while the front is expired, in order or not |
| `RateLimiting.InOrderIsKept` | domain/src/tradex_domain/rate_limiting.py:186-199 | Called in clock order, the deque is the whole accepted history filtered to the window |
| `RateLimiting.InOrderNeverOverflows` | domain/src/tradex_domain/rate_limiting.py:186-199 | and no window, wherever it ends, holds more than the limit |
| `RateLimiting.LateCallOverflows` | domain/src/tradex_domain/rate_limiting.py:193-199 | After a call with an older reading a window overflows if and only if the call was accepted into it while it was full; its own window, if and only if the retained stamps left room although those of its time did not |
| `RateLimiting.WhenLateCallOverfills` | domain/src/tradex_domain/rate_limiting.py:193-199 | A call with an older reading overfills some window if and only if the retained stamps leave room while some window it falls into is full |
| `RateLimiting.NewestWindowIsRetained` | domain/src/tradex_domain/rate_limiting.py:186-199 | Whatever order the readings come in, the deque never outgrows the limit and holds every accepted stamp of a window that ends no earlier than the newest reading |
| `RateLimiting.NewestWindowNeverOverflows` | domain/src/tradex_domain/rate_limiting.py:186-199 | So a window that ends no earlier than any reading so far never holds more than the limit |
| `RateLimiting.LateCallOverfills` | domain/src/tradex_domain/rate_limiting.py:193-199 | The readings that do it: two calls in one window, one a window later, and one read in the first |
| `RateLimiting.NoWindowOverflows` | domain/src/tradex_domain/rate_limiting.py:169-199 | A history each of whose stamps was accepted with room holds no more than the limit in any window |
| `BarGrid.BucketIsAnchoredFloor` | domain/src/tradex_domain/timeframe.py:150-182 | Intraday, daily and weekly grids are one rule with three anchors |
| `BarGrid.BucketIsFloor` | domain/src/tradex_domain/timeframe.py:150-182 | A bar holds its stamps, later stamps never fall in earlier bars, and a bar's start is in the bar |
| `BarGrid.BucketInNumbers` | domain/src/tradex_domain/timeframe.py:150-182 | A bar starts a whole number of widths from midnight, from Monday 1970-01-05 or from 09:15, at or before its stamp and less than a width before it, and nothing else does |
| `BarGrid.WeeksStartOnMonday` | domain/src/tradex_domain/timeframe.py:176-179 | Weekly bars start whole weeks from Monday 1970-01-05 |
| `BarGrid.OpenIsABoundary` | domain/src/tradex_domain/timeframe.py:180-182 | 09:15 of every day is a bar boundary of every width that divides the day |
| `BarGrid.MultiplesNest` | domain/src/tradex_domain/timeframe.py:180-182 | Grids with one anchor nest when one width divides the other |
| `BarGrid.DaysNestInWeeks` | domain/src/tradex_domain/timeframe.py:174-179 | Days nest in weeks |
| `BarGrid.IntradayNestsInDays` | domain/src/tradex_domain/timeframe.py:174-182 | An intraday bar lies in its stamp's day if and only if the stamp is not before the day's first boundary |
| `BarGrid.SessionNests` | domain/src/tradex_domain/timeframe.py:174-182 | Every session stamp nests in its day and its week |
| `Resample.Bucketize` | domain/src/tradex_domain/market.py:222-255 | The two loops compute the bars grouped in first-seen order |
| `Resample.AggregateMeans` | domain/src/tradex_domain/ohlcv.py:11-30 | First open, last close, attained extremes and total volume; an empty run is refused |
| `Resample.GroupingIsRolling` | domain/src/tradex_domain/market.py:222-255 | On sorted candles, grouping in a table is the one-pass live aggregation |
| `Resample.RollIsSorted` | domain/src/tradex_domain/market.py:222-255 | Bars of sorted candles come out in order |
| `Resample.ResamplingComposes` | domain/src/tradex_domain/market.py:222-255 | Resampling sorted candles through a nested narrower grid equals resampling directly, and volume is conserved |
| `Resample.SessionResamplesThroughDays` | domain/src/tradex_domain/market.py:222-255 | Session candles reach the day through any intraday width, and the week through the day |
| `ValueArea.PointOfControl` | analytics/src/tradex_analytics/profiles.py:145-148 | The first of the busiest levels |
| `ValueArea.ExpandTo` | analytics/src/tradex_analytics/profiles.py:150-161 | Terminates inside the array with a contiguous range around the point of control that meets the target or is everything |
| `ValueArea.Profile` | analytics/src/tradex_analytics/profiles.py:242-266 | The range holds the share if and only if no more than everything was asked for, was reached by always taking the busier neighbour, and was short of the share before its last step |
| `ValueArea.HeaviestOfItsWidth` | analytics/src/tradex_analytics/profiles.py:150-161 | On a peaked profile no range of as many levels holds more |
| `ValueArea.NothingNarrowerHoldsTheShare` | analytics/src/tradex_analytics/profiles.py:150-161 | On a peaked profile no narrower range meets the target |

## Left out

- Engine.Engine.constructor: the fingerprint table holds at least one entry; `Booking.JustRemembered` shows why a table of size zero would not do.
- Sessions.RunIsOrderly: a synchronous fill that is not priced, affordable, legal for its order and logged is outside; `Endings` says what each of those leaves behind.
- Sessions.RunIsTracked: a synchronous fill whose fingerprint is retained is outside; `Endings.WhenSynchronousFillRepeats` says it is then logged twice.
- Sessions.RunMirrorsOrders: an immediate fill that names another order than the one it is answered with, and a logged fill the ledger refused, are outside; the first is projected onto the wrong order by the code, the second onto none.
- SpineProtocol.VenueTakesAtMostOne: takes stamp and completion as one step; `AtMostOnceExactlyWhen` covers both readings.
- LedgerProtocol.OrdersAgreeExactlyWhen: where the opening balance cannot pay for some two fills, the converse depends on which fills raise it first.
- Recovery.RebuiltBookIsLive: the cash anchor and reconciliation events are outside; the opening balance is a parameter.
- RateLimiting.GrantedIsBounded: a factor above one raises the rate and is outside the envelope.
- Lifecycle.RoundTripsFromFills: records with a negative size, entry and exit reasons, and excursion columns.
- Fractional shares, prices finer than a paisa and the 28-digit decimal context; floating point is `real`.
- Engines without an idempotency guard, a ledger or an event store.
- The text of messages, metrics, logging, tracing and bus delivery to other subscribers.
- Splits, dividends and mark-to-market.
- Field-by-field decoding of fill records and candles; time zones other than Indian wall clock.
- The risk manager, fill sources and brokers: each is an answer in `Env`.
- Reconciliation, venue adoption and the cash manager.
- SQLite stores, the durable fill-dedup store and configuration.
- `MultiBucketRateLimiter`: it only composes the two limiters, and its `acquire` does not forward the token count.
- Unicode blanks and case in registry names, and the spelling of derived instrument keys.
- Building the volume-at-price table from bars; the expansion starts from the finished profile.
- Indicators, seasonality, chart transforms, serialization and HTTP layers.
