# Verified model of the field-booking backend

A Dafny 4.11 model of the parts of the sports-field booking backend that keep money, slots, tokens and
counters consistent, with proofs of what they guarantee over whole runs. `dafny verify dfyconfig.toml`
checks everything.

| file | what it models |
|---|---|
| `Money.dfy` | rounding to cents as the services and the DECIMAL(10,2) columns do it |
| `Ledger.dfy` | one running balance with its append-only ledger (a user's wallet, or the platform wallet) |
| `BookingStatus.dfy` | the status graph and the status history |
| `Policy.dfy` | pricing of a booking, cancellation refunds and their split |
| `BookingModel.dfy` | the booking tables and every method on them, as functions on table contents |
| `BookingInvariants.dfy` | what the tables satisfy: accounts, slots and histories |
| `BookingSteps.dfy` | every step keeps the accounts |
| `BookingSlots.dfy`, `BookingHistories.dfy` | exactly which steps keep slots and histories |
| `BookingOutcomes.dfy` | what each operation accepts and writes, read off the tables |
| `BookingResults.dfy`, `Solvency.dfy`, `PlatformSummary.dfy` | what follows over whole runs |
| `BookingService.dfy` | the same methods as a class that updates rows one after the other, proved against `BookingModel` |
| `Withdrawals.dfy` | withdrawal requests: hold, approve, reject and restore |
| `RefreshTokens.dfy` | refresh-token families with rotation, reuse detection, logout and cleanup |
| `Calendar.dfy`, `SlotGenerator.dfy` | the slot calendar with its overlap filter, bulk creation, and the recurring generator |
| `Throttle.dfy` | the sliding-window request counter over a Redis sorted set |
| `Otp.dfy` | one-time passwords: cooldown, expiry, failure count and lock |

Conventions. Stored amounts are integer cents; percentages and amounts that have not been rounded yet are
`real`. Times are milliseconds (the calendar uses day numbers and minutes) of one clock. Each service
method is one step that either happens as a whole or, when the source throws, leaves the tables as they
were. Random UUIDs are parameters or the next unused number.

## What the code does where one might expect something else

- **Failure writers without a guard.** `handlePaymentFailure`, `rejectPayment` and `expirePayment` set
  PAYMENT_FAILED and free the slot without looking at the booking's status. Three things follow, each exact:
  the accounts stay in order whenever they come (`StepKeepsAccounts`); the histories stay paths of the state
  machine if and only if none comes to a booking that has left PENDING_PAYMENT (`StepKeepsPathsIff`); and
  every slot keeps its one holder if and only if none comes to a booking that is over while another one
  holds its slot (`StepKeepsSlotsIff`). `RobberyDoubleBooks` shows that a slot freed in that way can be
  booked a second time, and `LateFailureDoubleBooks` gives a whole run.
- **Lead time.** The declared type of a slot's start time is Date, whose text does not parse as hh:mm:ss; all
  comparisons with the resulting NaN fail, so the 30-minute lead time is never demanded. The model takes
  whether the time parses as a parameter, and every theorem holds for both.
- **Refunds without commission.** The platform wallet refuses a debit of zero, so cancelling a paid booking
  that is due a refund always fails when its commission is zero; otherwise the money is there
  (`CancellationIsSolvent`, `SolventRun`; `CommissionFreeCancellationFails` gives a run).
- **Half cents.** A ledger row stores its amount rounded half away from zero, while a debit of a half cent
  removes the amount rounded down. The ledger therefore misses the balance by exactly one cent for every
  accepted half-cent debit, and by nothing else (`LedgerReplay`, `SummaryNetFlow`); a withdrawal request
  over a half cent can even return a cent it never took (`HalfCentGains`). A bound of half a
  cent per row holds exactly when at most every second accepted entry is a half-cent debit
  (`HalfCentPerRowIff`) and fails for a deposit of four cents and two withdrawals of one and a half
  (`HalfCentPerRowFails`). In the whole system only half-cent withdrawals can break it, because each refund row
  has a deposit row of its own (`SummaryOfRun`).
- **Bulk creation and generation.** `bulkCreateTimeSlots` does not compare the new slots with each other and
  keeps the calendar disjoint exactly when the requested time ranges are disjoint; the generator compares
  identical slots only and keeps it disjoint exactly when the planned tiles coincide with or are apart from
  the stored ones (`OverlappingRangesAreAccepted` and `OverlappingTileIsInserted` give the failing cases).
- **Throttling.** The storage reads `ttl` as seconds although the throttler passes milliseconds
  (src/app.module.ts:55), so a configured window of 15 minutes lasts 900000 seconds; the model follows the
  storage. Requests in the same millisecond count once, so a burst passes (`BurstPasses`).
  Counts are exact if and only if nothing in the window was pruned or expired early (`HitsExactIff`), which
  one ttl per key rules out.
- **Wrong guesses per minute.** Five wrong guesses per code always hold. Five per started minute of a span
  holds for whole runs, but for a span in the middle of a run exactly when it starts with no code open to
  guesses or, in the very millisecond of a request, with codes good for at most five (`FivePerMinuteIff`):
  a code from before the span adds its own guesses, and an older unused code is compared again once a newer
  one has been used.

## Model

| member | source | states |
|---|---|---|
| `Money.RoundingGap` | src/modules/wallet/wallet.service.ts:118-143 | the amount a debit row records exceeds what the debit takes by one cent exactly on half cents, and never otherwise |
| `Money.CreditMoves` | src/modules/wallet/wallet.service.ts:60-63 | rounding the new balance equals adding the amount rounded half away from zero |
| `Money.DebitMoves` | src/modules/platform-wallet/platform-wallet.service.ts:79-82 | a debit is refused exactly when the rounded amount exceeds the balance, and otherwise takes the amount rounded half down |
| `Money.WholeCents` | src/modules/wallet/wallet.service.ts:40-63 | whole cents are unchanged by every rounding in use |
| `Ledger.CreditKeeps` | src/modules/wallet/wallet.service.ts:40-91 | a credit succeeds for exactly the positive amounts, chains its row to the balance and moves the balance by the recorded amount |
| `Ledger.DebitKeeps` | src/modules/wallet/wallet.service.ts:98-153 | a debit is refused exactly for a non-positive or uncovered amount, chains its row and leaves a half-cent trace iff the amount was on a half cent |
| `Ledger.RunKeeps` | src/modules/platform-wallet/platform-wallet.service.ts:25-117 | any sequence of credits and debits keeps the ledger chained and non-negative and widens the replay gap by its accepted half-cent debits |
| `Ledger.LedgerReplay` | src/modules/wallet/wallet.service.ts:52-152 | for every run from an empty wallet: rows chain, the last one is the balance, and replaying the recorded amounts misses it by one cent per accepted half-cent debit |
| `Ledger.ReplayGap` | src/modules/wallet/wallet.service.ts:66-78 | the gap can be read off any well-kept ledger from its rows alone |
| `Ledger.SummaryNetFlow` | src/modules/admin/admin.service.ts:1800-1857 | netFlow, summed by type, equals the platform balance if and only if no half-cent debit was accepted, and otherwise falls short by their number in cents |
| `Ledger.WholeCentRun` | src/modules/admin/admin.service.ts:1800-1857 | whole-cent amounts never leave a gap |
| `Ledger.NetFlowCanDrift` | src/modules/admin/admin.service.ts:1800-1857 | a one-cent deposit and a half-cent refund leave a gap of a whole cent after two rows, which is exactly half a cent per row |
| `Ledger.HalfCentPerRowIff` | src/modules/admin/admin.service.ts:1800-1857 | the gap is within half a cent per row, for any ledger's replay and for netFlow, if and only if at most every second accepted entry is a half-cent debit |
| `Ledger.HalfCentPerRowFails` | src/modules/admin/admin.service.ts:1863-1879 | two half-cent withdrawals after a deposit leave three rows and a gap of two cents |
| `BookingStatus.TransitionLowersRank` | src/modules/bookings/booking-state-machine.ts:8-31 | every allowed transition lowers a rank; rank zero is exactly the terminal statuses |
| `BookingStatus.EnteredFrom` | src/modules/bookings/booking-state-machine.ts:8-31 | the table read by column: exactly where each status may be entered from |
| `BookingStatus.RankFalls` | src/modules/bookings/booking-state-machine.ts:8-20 | along any history path the rank falls by at least one per row |
| `BookingStatus.HistoryIsShort` | src/modules/bookings/booking-state-machine.ts:8-59 | a history has at most four rows, no status occurs twice and a terminal status is its last row |
| `BookingStatus.ConfirmedIsSecond` | src/modules/bookings/booking-state-machine.ts:8-20 | a booking was ever confirmed exactly when its second history row says so |
| `BookingStatus.ChangeKeepsPath` | src/modules/bookings/bookings.service.ts:407-462 | appending a history row keeps the path iff it names the current status as origin and the transition is allowed |
| `Policy.PriceFits` | src/modules/bookings/bookings.service.ts:152-210 | for every price and rate, deposit and commission are the nearest cents, commission <= deposit <= total and deposit is commission plus owner revenue, so the clamp to zero is never needed |
| `Policy.RefundBounds` | src/modules/bookings/cancellation-policy.service.ts:137-174 | every refund lies between zero and the deposit, and an owner's cancellation refunds all of it |
| `Policy.EarlierIsNoWorse` | src/modules/bookings/cancellation-policy.service.ts:119-142 | under an ordered policy cancelling earlier never refunds less |
| `Policy.SplitGapIsOneCent` | src/modules/bookings/bookings.service.ts:644-683 | a refund pays the player at most one cent more or less than platform and owner lose, exactly the same at 100 percent, and neither loses more than its share |
| `Policy.SplitGapIsTight` | src/modules/bookings/bookings.service.ts:644-683 | both one-cent gaps occur |
| `BookingInvariants.InitOk` | src/modules/bookings/bookings.service.ts:64-268 | a system without bookings and money has accounts, slots and histories in order |
| `BookingInvariants.CreateKeepsAccounts` | src/modules/bookings/bookings.service.ts:64-268 | creating a booking keeps the accounts: prices fit and nothing needs explaining yet |
| `BookingSteps.ConfirmKeeps` | src/modules/bookings/booking-confirmation.service.ts:50-174 | confirming a paid booking keeps the accounts: platform gains the deposit, owner the deposit less commission, the payer's wallet loses what it paid |
| `BookingSteps.FailPaymentKeeps` | src/modules/bookings/booking-confirmation.service.ts:313-359 | an unguarded failure writer keeps the accounts whatever the booking's status is |
| `BookingSteps.MarkPaymentFailedKeeps` | src/modules/bookings/bookings.service.ts:478-494 | so does the guarded one |
| `BookingSteps.SelectExact` | src/modules/bookings/bookings-cron.service.ts:19-65 | the cron queries select every matching booking, each once, and no other |
| `BookingSteps.ExpireUnpaidExact` | src/modules/bookings/bookings-cron.service.ts:16-51 | the job fails exactly the overdue unpaid bookings, each once, and touches no other row |
| `BookingSteps.ExpireNoShowsExact` | src/modules/bookings/bookings-cron.service.ts:57-87 | the job expires exactly the confirmed bookings past their end, moves no money and no slot |
| `BookingSteps.PayRefundSucceedsIff` | src/modules/bookings/bookings.service.ts:654-683 | the three refund movements go through exactly when wallets exist and platform and owner can bear their positive parts |
| `BookingSteps.PayRefundMoves` | src/modules/bookings/bookings.service.ts:644-683 | a paid refund moves player, platform and owner by their rounded parts and no other balance |
| `BookingSteps.CancelKeeps` | src/modules/bookings/bookings.service.ts:528-690 | every successful cancellation, paid out or not, keeps the accounts |
| `BookingSteps.NoShowKeeps` | src/modules/bookings/bookings.service.ts:790-869 | marking a no-show keeps the accounts, the owner gaining exactly the commission |
| `BookingSteps.StepKeepsAccounts` | src/modules/bookings/booking-confirmation.service.ts:130-174 | each of twenty-three kinds of events keeps all ledgers chained and every balance explained by the bookings, failure writers included |
| `BookingSlots.SlotsAfterFailureIff` | src/modules/bookings/booking-confirmation.service.ts:313-359 | failing a booking and freeing its slot is right exactly when the booking still held the slot or nobody holds it |
| `BookingSlots.StepKeepsSlotsIff` | src/modules/admin/payment-verification.service.ts:366-404 | a step keeps every slot BOOKED exactly by its one holder if and only if it is no failure writer on a finished booking whose slot another one holds |
| `BookingSlots.RunKeepsSlotsIff` | src/modules/payments/services/manual-payment.service.ts:371-414 | a run has its slots right all along if and only if no event of it does that |
| `BookingHistories.StepKeepsPathsIff` | src/modules/bookings/booking-confirmation.service.ts:339-347 | a step keeps every status history a path of the state machine if and only if it is no failure writer on a booking that has left PENDING_PAYMENT |
| `BookingHistories.RunKeepsPathsIff` | src/modules/admin/payment-verification.service.ts:366-404 | the same along a run |
| `BookingOutcomes.CreateAcceptedIff` | src/modules/bookings/bookings.service.ts:34-200 | a booking is accepted exactly for a verified, unsuspended user, an available slot of another's field, a deposit percentage within 0 to 100 and a rate not above it |
| `BookingOutcomes.CreateNeedsSlotAndField` | src/modules/bookings/bookings.service.ts:91-135 | without the slot or its field no booking is accepted |
| `BookingOutcomes.CreateOutcome` | src/modules/bookings/bookings.service.ts:152-268 | every field of the new row: commission is the nearest cent at the field's own rate, else the global one, else 10 percent, deposit likewise at the set percentage, else all; the slot is booked and nothing else changes |
| `BookingOutcomes.ConfirmOutcome` | src/modules/bookings/booking-confirmation.service.ts:50-174 | when a confirmation goes through, and its whole effect: row, QR code, one platform row of the deposit, one owner row of the rest |
| `BookingOutcomes.WebhookOutcome` | src/modules/payments/controllers/payment.controller.ts:664-735 | the whole effect of each notice on a pending payment, and none on any other |
| `BookingOutcomes.ApproveOutcome` | src/modules/admin/payment-verification.service.ts:201-330 | exactly which payments are approved, and the whole effect |
| `BookingOutcomes.RejectOutcome` | src/modules/admin/payment-verification.service.ts:335-445 | exactly which payments are rejected or expired, and the whole effect |
| `BookingOutcomes.InitiateOutcome` | src/modules/payments/controllers/payment.controller.ts:281-552 | which payments are started, answered from the existing one or refused, and the row written |
| `BookingOutcomes.DepositOutcome` | src/modules/payments/controllers/payment.controller.ts:145-254 | the same for a deposit |
| `BookingOutcomes.UploadOutcome` | src/modules/payments/services/manual-payment.service.ts:120-308 | which screenshots are accepted, and the row written |
| `BookingOutcomes.WalletPayOutcome` | src/modules/payments/gateways/wallet.gateway.ts:25-120 | a covered deposit leaves the wallet to the cent and confirms the booking, an uncovered one records a failed payment |
| `BookingOutcomes.CancelAcceptedIff` | src/modules/bookings/bookings.service.ts:509-565 | who may cancel when, and that a refund to be paid out must go through |
| `BookingOutcomes.CancelOutcome` | src/modules/bookings/bookings.service.ts:567-690 | an owner's cancellation grants the whole deposit, a player's the percentage of the policy's tier for the time left until the start, to the nearest cent; status, slot, row and payment follow |
| `BookingOutcomes.CancelPaysThePlayer` | src/modules/bookings/bookings.service.ts:638-690 | in a reachable state the player's wallet gains exactly the recorded refund, platform and owner lose that percentage of commission and share to the nearest cent, and no other wallet moves |
| `BookingOutcomes.CheckInOutcome` | src/modules/qr/qr.controller.ts:191-264 | the owner checks in a confirmed booking on its day, and only its row changes |
| `BookingOutcomes.ScanOutcome` | src/modules/qr/qr.controller.ts:75-152 | the same by an unused QR code, which is used up |
| `BookingOutcomes.StatusOutcome` | src/modules/bookings/bookings.service.ts:478-494 | completion needs a check-in, a guarded failure an unpaid booking, whose slot it frees |
| `BookingOutcomes.NoShowOutcome` | src/modules/bookings/bookings.service.ts:790-869 | when a no-show is accepted, and its whole effect on row, player and owner's wallet |
| `BookingOutcomes.UnpaidJobOutcome` | src/modules/bookings/bookings-cron.service.ts:16-51 | exactly the overdue unpaid bookings fail, exactly their slots are freed, and nothing else changes |
| `BookingOutcomes.NoShowJobOutcome` | src/modules/bookings/bookings-cron.service.ts:57-87 | exactly the confirmed bookings past their end expire, and nothing else changes |
| `BookingOutcomes.PlatformWithdrawOutcome` | src/modules/admin/admin.service.ts:1863-1879 | which withdrawals are accepted, the cents taken and the row written |
| `BookingOutcomes.MoveWalletOutcome` | src/modules/wallet/wallet.service.ts:40-153 | a wallet movement outside bookings changes one wallet by the nearest cent, with one row of its kind |
| `BookingOutcomes.SlotTableOutcome` | src/modules/time-slots/time-slots.service.ts:251-464 | which slot rows are added, changed or removed beside bookings, and that no other row changes |
| `BookingOutcomes.SettingsOutcome` | src/modules/admin/admin.service.ts:306-318 | settings in range are stored, and nothing else changes |
| `BookingOutcomes.Refusals` | src/modules/bookings/bookings.service.ts:545-555 | bookings that do not exist are not found, other people's forbidden, a second payment in conflict |
| `BookingOutcomes.CreateRefusals` | src/modules/bookings/bookings.service.ts:91-142 | missing slots and fields are not found, a taken slot is refused |
| `BookingResults.OneHolderPerSlot` | src/modules/bookings/bookings.service.ts:64-268 | a run from a fresh system has each slot BOOKED exactly when one and only one live booking holds it, in all its states, if and only if no failure writer robs a booking of its slot |
| `BookingResults.RobberyDoubleBooks` | src/modules/bookings/booking-confirmation.service.ts:353-359 | after any such robbery a further booking of the slot gives it two live holders |
| `BookingResults.HistoriesArePaths` | src/modules/bookings/booking-state-machine.ts:8-20 | histories are paths all along a run iff nothing misfires, and in any run a history that is none belongs to a failed booking |
| `BookingResults.BalancesAreExplained` | src/modules/bookings/booking-confirmation.service.ts:130-174 | in every state of every run from a fresh system each balance is the sum over bookings plus payouts and withdrawals, is non-negative, and differs from its ledger's replay by its half-cent debits |
| `BookingResults.LateFailureDoubleBooks` | src/modules/bookings/booking-confirmation.service.ts:313-359 | a run of six events from a fresh system ends with two live bookings on one slot |
| `BookingHistories.RowsOnlyGrow` | src/modules/bookings/bookings.service.ts:407-462 | each event extends a history by an allowed transition or not at all, a misfiring writer by its own row only, and reopens no settled payment |
| `BookingResults.ReachedAtMostOnce` | src/modules/bookings/booking-confirmation.service.ts:79-87 | over any run a booking enters CONFIRMED at most once and CHECKED_IN at most once, so platform and owner are credited at most once |
| `BookingResults.CheckedInAtMostOnce` | src/modules/qr/qr.controller.ts:75-264 | in any run the successful check-ins of a booking, by id or by QR code, number at most one |
| `BookingResults.UnpaidDeadline` | src/modules/bookings/bookings.service.ts:212-268 | the cron job fails a new unpaid booking exactly when more than fifteen minutes have passed |
| `BookingResults.ThirdNoShowStopsBooking` | src/modules/bookings/bookings.service.ts:822-848 | after a player's third no-show every booking attempt of any later run is refused for thirty days |
| `BookingResults.ConfirmSucceedsIff` | src/modules/bookings/booking-confirmation.service.ts:130-174 | confirmation goes through exactly when there is a deposit to credit and, if the owner has a share, a wallet for it |
| `BookingResults.DeliveryEffect` | src/modules/payments/controllers/payment.controller.ts:699-733 | a notice settles payment and booking together or changes nothing |
| `BookingResults.DeliveryIsIdempotent` | src/modules/payments/controllers/payment.controller.ts:664-735 | any list of notices for a pending payment has the effect of its first decisive one |
| `BookingResults.SettledForGood` | src/modules/payments/controllers/payment.controller.ts:691-695 | once settled, every later notice is ignored whatever happened in between |
| `BookingResults.DriftIsBounded` | src/modules/bookings/bookings.service.ts:644-683 | over any table of bookings, refunds create or destroy at most one cent per refunded booking |
| `PlatformSummary.SummaryOfRun` | src/modules/admin/admin.service.ts:1800-1879 | after any run the platform has one deposit row per booking ever confirmed and one refund row per booking refunded, never more refunds than deposits, and netFlow falls short by at most half a cent per row plus one cent per half-cent withdrawal |
| `Solvency.BalancesCover` | src/modules/bookings/booking-confirmation.service.ts:130-174 | without spending, platform and owner hold at least what a confirmed booking brought them |
| `Solvency.CancellationIsSolvent` | src/modules/bookings/bookings.service.ts:644-683 | without spending, a permitted cancellation of a confirmed booking succeeds if and only if no refund is due or there is a commission |
| `Solvency.UnpaidCancellationSucceeds` | src/modules/bookings/bookings.service.ts:528-636 | an unpaid booking can always be cancelled, and no money moves |
| `Solvency.UnspentRun` | src/modules/platform-wallet/platform-wallet.service.ts:57-117 | such runs keep accounts in order and the outside money of platform and owner from falling |
| `Solvency.SolventRun` | src/modules/bookings/bookings.service.ts:644-683 | after every run from a fresh system in which the platform withdraws nothing and the owner spends nothing, misfires or not, cancelling a confirmed booking of the owner succeeds iff no refund is due or there is a commission |
| `Solvency.CommissionFreeCancellationFails` | src/modules/platform-wallet/platform-wallet.service.ts:57-117 | a run from a fresh system to a confirmed booking without commission whose owner cannot cancel it |
| `BookingService.Database.CreditWallet` | src/modules/wallet/wallet.service.ts:40-91 | new wallets and result are those of the model's credit, error cases included |
| `BookingService.Database.DebitWallet` | src/modules/wallet/wallet.service.ts:98-153 | new wallets and result are those of the model's debit, error cases included |
| `BookingService.Database.CreditPlatform` | src/modules/platform-wallet/platform-wallet.service.ts:25-55 | the platform account becomes the model's credited account, or stays |
| `BookingService.Database.DebitPlatform` | src/modules/platform-wallet/platform-wallet.service.ts:57-117 | the platform account becomes the model's debited account, or stays |
| `BookingService.Database.CreateBooking` | src/modules/bookings/bookings.service.ts:34-268 | all tables become what the model's creation says, or stay on every refusal |
| `BookingService.Database.ConfirmBooking` | src/modules/bookings/booking-confirmation.service.ts:50-174 | row updates and credits, rolled back when a credit is refused, amount to the model's confirmation |
| `BookingService.Database.HandlePaymentFailure` | src/modules/bookings/booking-confirmation.service.ts:285-407 | status, history and slot become PAYMENT_FAILED and free whatever the status was |
| `BookingService.Database.ProcessWebhookResult` | src/modules/payments/controllers/payment.controller.ts:664-735 | the three outcomes and the ignored repeat amount to the model's webhook |
| `BookingService.Database.ApprovePayment` | src/modules/admin/payment-verification.service.ts:201-330 | an unverified payment with screenshot of a pending booking that no other admin reviews is completed and confirmed, anything else refused |
| `BookingService.Database.RejectPayment` | src/modules/admin/payment-verification.service.ts:335-445 | refused for reviewed payments only; fails the booking whatever its status |
| `BookingService.Database.ExpirePayment` | src/modules/payments/services/manual-payment.service.ts:371-417 | fails payment and booking whatever their status |
| `BookingService.Database.InitiatePayment` | src/modules/payments/controllers/payment.controller.ts:281-552 | answers from a pending or completed payment, else creates the payment of a payable booking, pending or failed as the gateway answers, and reports a failure after recording it |
| `BookingService.Database.InitiateDeposit` | src/modules/payments/controllers/payment.controller.ts:145-254 | creates the payment or points the existing one at a new attempt |
| `BookingService.Database.UploadScreenshot` | src/modules/payments/services/manual-payment.service.ts:120-308 | accepted for a pending manual payment with attempts left that is not under review or approved |
| `BookingService.Database.PayWithWallet` | src/modules/payments/controllers/payment.controller.ts:281-552 | debits the player and confirms, or records a failed payment when the debit is refused and reports it |
| `BookingService.Database.CheckPayable` | src/modules/payments/controllers/payment.controller.ts:301-420 | the checks before a payment, and when an existing payment is the answer |
| `BookingService.Database.UpdateBookingStatus` | src/modules/bookings/bookings.service.ts:407-462 | changes status and history exactly for allowed transitions |
| `BookingService.Database.MarkPaymentFailed` | src/modules/bookings/bookings.service.ts:478-494 | takes the allowed transition to PAYMENT_FAILED and frees the slot, or changes nothing |
| `BookingService.Database.CancelBooking` | src/modules/bookings/bookings.service.ts:500-740 | all tables become what the model's cancellation says; a refused movement undoes the earlier ones |
| `BookingService.Database.CheckInBooking` | src/modules/bookings/bookings.service.ts:741-781 | the owner checks a booking in on its day, by an allowed transition only |
| `BookingService.Database.ValidateQrCode` | src/modules/qr/qr.controller.ts:75-152 | an unused code of a confirmed booking checks it in once and is used up |
| `BookingService.Database.MarkNoShow` | src/modules/bookings/bookings.service.ts:790-897 | status, no-show count, suspension at the third and compensation, or nothing |
| `BookingService.Database.ExpireUnpaidBookings` | src/modules/bookings/bookings-cron.service.ts:16-51 | the loop amounts to failing every selected booking |
| `BookingService.Database.ExpireNoShowBookings` | src/modules/bookings/bookings-cron.service.ts:57-87 | the loop amounts to expiring every selected booking |
| `Withdrawals.WorthStep` | src/modules/wallet/wallet.service.ts:408-570 | balance plus pending and approved amounts changes by ordinary entries only, but for one cent per granted half-cent request |
| `Withdrawals.WorthOfRun` | src/modules/wallet/wallet.service.ts:408-570 | the same summed over a whole run |
| `Withdrawals.ConservationIff` | src/modules/wallet/wallet.service.ts:433-468 | holds conserve an owner's money over a run if and only if no granted request was over a half-cent amount |
| `Withdrawals.HalfCentGains` | src/modules/wallet/wallet.service.ts:537-559 | requesting half a cent and being rejected gains one cent |
| `Withdrawals.CreateOutcome` | src/modules/wallet/wallet.service.ts:408-487 | a request is granted exactly to a field owner whose balance covers it; the new row, the wallet and its row, and nothing else |
| `Withdrawals.ApproveOutcome` | src/modules/wallet/wallet.service.ts:492-516 | an approval is accepted exactly for a request that was not rejected, makes it APPROVED and changes nothing else |
| `Withdrawals.RejectOutcome` | src/modules/wallet/wallet.service.ts:521-570 | a rejection is accepted exactly for a request that was not approved, makes it REJECTED and gives a held amount back |
| `Withdrawals.ApprovedIsNeverRestored` | src/modules/admin/admin.service.ts:1903-1970 | after a successful approval every later rejection of any run is refused and nothing is restored |
| `Withdrawals.RejectedIsNeverApproved` | src/modules/admin/admin.service.ts:1903-1970 | after a successful rejection every later approval of any run is refused and nothing is restored again |
| `Withdrawals.ReviewIsIdempotent` | src/modules/admin/admin.service.ts:1903-1970 | repeating an approval or rejection changes nothing |
| `Withdrawals.OutcomeIsFinal` | src/modules/admin/admin.service.ts:1903-1970 | a reviewed request keeps its row in every later state, so the outcomes exclude each other |
| `Withdrawals.RestoredAtMostOnce` | src/modules/wallet/wallet.service.ts:521-570 | in any run a request's money is restored at most once, and never once it was reviewed |
| `Withdrawals.WithdrawalDesk.CreateWithdrawalRequest` | src/modules/wallet/wallet.service.ts:408-487 | new state is the model's step; accepted exactly when the model accepts |
| `Withdrawals.WithdrawalDesk.ApproveWithdrawalRequest` | src/modules/wallet/wallet.service.ts:492-516 | new state is the model's approval; accepted exactly when the model accepts |
| `Withdrawals.WithdrawalDesk.RejectWithdrawalRequest` | src/modules/wallet/wallet.service.ts:521-570 | new state is the model's rejection; accepted exactly when the model accepts |
| `RefreshTokens.StepKeeps` | src/modules/auth/auth.service.ts:60-380 | every event keeps each family a replacedBy chain whose stored part is a suffix ending in the only possibly live token |
| `RefreshTokens.RunKeeps` | src/modules/auth/auth.service.ts:60-380 | so does every run with fresh ids and a clock that does not run backwards |
| `RefreshTokens.OneLiveToken` | src/modules/auth/auth.service.ts:235-273 | in every reachable state a family has at most one unrevoked token |
| `RefreshTokens.NoDanglingLink` | src/modules/auth/auth.service.ts:319-328 | in every reachable state replacedBy leads to a stored token of the same family and user |
| `RefreshTokens.SuffixRemains` | src/modules/auth/auth.service.ts:319-328 | cleanup leaves a contiguous suffix, with expiry times in order |
| `RefreshTokens.ReuseKills` | src/modules/auth/auth.service.ts:223-228 | presenting a revoked token revokes its whole family |
| `RefreshTokens.ReplayKills` | src/modules/auth/auth.service.ts:223-301 | replaying any exchanged token that is still stored does the same |
| `RefreshTokens.LogoutKills` | src/modules/auth/auth.service.ts:335-380 | logout revokes every family of the user |
| `RefreshTokens.RefusedRefreshChangesNothing` | src/modules/auth/auth.service.ts:208-233 | a bad signature, an unknown token or a live one past its expiry is refused without effect |
| `RefreshTokens.LoginIssues` | src/modules/auth/auth.service.ts:60-101 | the token of a login is acceptable for exactly seven days, for its user in its family |
| `RefreshTokens.RefreshIssues` | src/modules/auth/auth.service.ts:235-273 | so is the token of a refresh, counted from the refresh; the old one is revoked and points to it, and no other row changes |
| `RefreshTokens.UsableUntilExpiry` | src/modules/auth/auth.service.ts:208-380 | after any orderly run a live token is accepted up to its expiry if and only if no event exchanged or revoked it, presented a revoked token of its family or logged its user out, and never after |
| `RefreshTokens.SevenDaysFromLogin` | src/modules/auth/auth.service.ts:84-95 | the same counted from a login: seven days |
| `RefreshTokens.SevenDaysFromRefresh` | src/modules/auth/auth.service.ts:262-273 | and from a refresh, whatever the age of the token it replaces |
| `RefreshTokens.DeadForGood` | src/modules/auth/auth.service.ts:208-301 | once all tokens of a family are revoked, no later event of any run accepts one of them or issues a new one in it |
| `RefreshTokens.ExchangedAtMostOnce` | src/modules/auth/auth.service.ts:208-285 | no run exchanges the same token twice |
| `RefreshTokens.TokenTable.GenerateTokenPair` | src/modules/auth/auth.service.ts:60-101 | table becomes the model's after a login |
| `RefreshTokens.TokenTable.RefreshAccessToken` | src/modules/auth/auth.service.ts:208-285 | table becomes the model's; a new token is returned exactly for an acceptable one |
| `RefreshTokens.TokenTable.RevokeTokenFamily` | src/modules/auth/auth.service.ts:290-301 | exactly the family's rows become revoked |
| `RefreshTokens.TokenTable.RevokeRefreshToken` | src/modules/auth/auth.service.ts:306-314 | exactly this token becomes revoked |
| `RefreshTokens.TokenTable.Logout` | src/modules/auth/auth.service.ts:335-380 | exactly the user's rows become revoked |
| `RefreshTokens.TokenTable.CleanupExpiredTokens` | src/modules/auth/auth.service.ts:319-328 | exactly the expired rows are deleted and counted |
| `Calendar.FilterIsIntersection` | src/modules/time-slots/time-slots.service.ts:82-116 | for proper intervals the three clauses hold iff some minute lies in both slots |
| `Calendar.FilterNeedsProperIntervals` | src/modules/time-slots/time-slots.service.ts:82-116 | for an empty interval they do not |
| `Calendar.CreateKeeps` | src/modules/time-slots/time-slots.service.ts:28-140 | a slot is accepted iff it is permitted, proper, not past and meets no stored one, and then all stay pairwise disjoint |
| `Calendar.UpdateKeeps` | src/modules/time-slots/time-slots.service.ts:251-402 | an update is accepted iff it is permitted, proper, not moved into the past and meets no other slot, and then all stay pairwise disjoint |
| `Calendar.CreateOutcome` | src/modules/time-slots/time-slots.service.ts:118-140 | the slot is stored as requested and available, and no other changes |
| `Calendar.UpdateOutcome` | src/modules/time-slots/time-slots.service.ts:365-402 | exactly the named fields are written, and no other slot changes |
| `Calendar.DeleteOutcome` | src/modules/time-slots/time-slots.service.ts:411-464 | exactly which slots can be deleted, and that only they go |
| `Calendar.Refusals` | src/modules/time-slots/time-slots.service.ts:411-434 | missing slots and fields are not found, others' fields forbidden |
| `Calendar.Weekdays` | src/modules/time-slots/time-slots.service.ts:559-565 | the weekday of a day number |
| `Calendar.DatesExact` | src/modules/time-slots/time-slots.service.ts:555-565 | the day loop yields exactly the matching days of the range, ascending |
| `Calendar.RowsCount` | src/modules/time-slots/time-slots.service.ts:583-594 | one row per matching day and range |
| `Calendar.RowsExact` | src/modules/time-slots/time-slots.service.ts:583-594 | the rows are exactly those of all dates and ranges, with the range's times and price, and available |
| `Calendar.RowsApartIff` | src/modules/time-slots/time-slots.service.ts:583-594 | the rows are pairwise apart exactly when the ranges are |
| `Calendar.BulkCreateKeepsIff` | src/modules/time-slots/time-slots.service.ts:485-655 | bulk creation inserts days times ranges slots and keeps the calendar disjoint if and only if the ranges are pairwise disjoint |
| `Calendar.BulkCreateAcceptedIff` | src/modules/time-slots/time-slots.service.ts:485-648 | exactly which bulk creations are accepted |
| `Calendar.BulkCreateOutcome` | src/modules/time-slots/time-slots.service.ts:573-648 | it stores exactly the rows of all matching days and ranges beside the slots there were |
| `Calendar.OverlappingRangesAreAccepted` | src/modules/time-slots/time-slots.service.ts:596-648 | an accepted bulk creation with two overlapping ranges leaves overlapping slots |
| `Calendar.TimeSlots.CreateTimeSlot` | src/modules/time-slots/time-slots.service.ts:28-140 | the table becomes the model's, or stays, and disjointness is kept |
| `Calendar.TimeSlots.UpdateTimeSlot` | src/modules/time-slots/time-slots.service.ts:251-402 | the table becomes the model's after an update, or stays, and disjointness is kept |
| `Calendar.TimeSlots.DeleteTimeSlot` | src/modules/time-slots/time-slots.service.ts:411-464 | removes exactly an unbooked slot that is not past and that no booking refers to, and disjointness is kept |
| `Calendar.TimeSlots.DatesToGenerate` | src/modules/time-slots/time-slots.service.ts:555-565 | the while loop computes the specified dates |
| `Calendar.TimeSlots.SlotsToCreate` | src/modules/time-slots/time-slots.service.ts:583-594 | the nested loops compute the specified rows |
| `Calendar.TimeSlots.BulkCreateTimeSlots` | src/modules/time-slots/time-slots.service.ts:485-655 | the table becomes the model's after a bulk creation, or stays |
| `SlotGenerator.TilesExact` | src/modules/jobs/processors/slots.processor.ts:132-159 | a day gets floor((end - start) / duration) contiguous slots of that duration, none when the window is too short, leaving less than a slot |
| `SlotGenerator.TilesApart` | src/modules/jobs/processors/slots.processor.ts:132-159 | and they are pairwise disjoint |
| `SlotGenerator.LoopInsertsMissing` | src/modules/jobs/processors/slots.processor.ts:162-190 | the insert loop inserts exactly the missing rows and counts them, or fails exactly if a missing row's unique key is taken |
| `SlotGenerator.GenerateIsUnion` | src/modules/jobs/processors/slots.processor.ts:94-205 | created plus skipped is days times tiles, and the stored times afterwards are the union of those before and the planned ones |
| `SlotGenerator.GenerateOutcome` | src/modules/jobs/processors/slots.processor.ts:94-205 | stored slots stay, and new ones are available tiles of the schedule at its price, as many as it counts |
| `SlotGenerator.SecondRunCreatesNothing` | src/modules/jobs/processors/slots.processor.ts:162-190 | running the job again creates nothing and skips everything |
| `SlotGenerator.GenerateKeepsDisjointIff` | src/modules/jobs/processors/slots.processor.ts:162-190 | a disjoint calendar stays so if and only if each planned tile coincides with or is apart from each stored slot |
| `SlotGenerator.OverlappingTileIsInserted` | src/modules/jobs/processors/slots.processor.ts:162-190 | a tile is inserted beside a stored slot that it overlaps |
| `SlotGenerator.TileDay` | src/modules/jobs/processors/slots.processor.ts:132-159 | the while loop computes the specified tiles |
| `SlotGenerator.InsertLoop` | src/modules/jobs/processors/slots.processor.ts:162-190 | the transaction inserts the specified rows and counts, or rolls back |
| `SlotGenerator.HandleGeneration` | src/modules/jobs/processors/slots.processor.ts:94-205 | the whole job computes the specified table and counters |
| `Throttle.StoredExactly` | src/common/throttler/redis-throttler-storage.service.ts:38-53 | whatever the ttls, a timestamp is stored exactly if no later request of the key pruned it and the key was always used again before it expired |
| `Throttle.StoreIsWindow` | src/common/throttler/redis-throttler-storage.service.ts:38-53 | at any later time the stored timestamps in a window no wider than the key's shortest ttl are those of the whole history |
| `Throttle.HitsExactIff` | src/common/throttler/redis-throttler-storage.service.ts:26-68 | the answered count is the number of distinct timestamps of the key's whole history in the request's own window if and only if each of them survived |
| `Throttle.HitsExact` | src/common/throttler/redis-throttler-storage.service.ts:26-68 | so it is exact whenever no earlier ttl of the key was shorter, in particular with one ttl per key |
| `Throttle.AnswerOutcome` | src/common/throttler/redis-throttler-storage.service.ts:56-67 | with one ttl per key the whole answer: hits, reset time, blocked exactly above the limit, and for how long |
| `Throttle.HitsNeverOvercount` | src/common/throttler/redis-throttler-storage.service.ts:38-53 | whatever the ttls, nothing outside the own window is counted |
| `Throttle.NarrowTtlForgets` | src/common/throttler/redis-throttler-storage.service.ts:41-53 | a history with two ttls under one key whose count misses a timestamp |
| `Throttle.WindowLimit` | src/common/throttler/redis-throttler-storage.service.ts:26-68 | in every window of length ttl the requests let through have at most `limit` distinct timestamps |
| `Throttle.RequestLimit` | src/common/throttler/redis-throttler-storage.service.ts:26-68 | their number is at most the limit times the requests per millisecond |
| `Throttle.BurstPasses` | src/common/throttler/redis-throttler-storage.service.ts:44-47 | a burst of any size within one millisecond passes a positive limit |
| `Throttle.RedisThrottlerStorage.Increment` | src/common/throttler/redis-throttler-storage.service.ts:26-68 | pruning, adding, counting and expiring in place give the specified answer and store |
| `Otp.WrongReplies` | src/modules/otp/otp.service.ts:226-243 | a wrong comparison is exactly what the two failure replies report |
| `Otp.NoCodeIff` | src/modules/otp/otp.service.ts:162-176 | nothing is verified exactly when the owner has no unused code |
| `Otp.VerifyOutcome` | src/modules/otp/otp.service.ts:178-254 | for the newest unused code each reply exactly when it is due (locked, expired, fifth miss, miss, accepted), what it writes, and that no other code changes |
| `Otp.CreateOutcome` | src/modules/otp/otp.service.ts:84-148 | a request is refused exactly while a code is younger than a minute; a new code lives ten minutes |
| `Otp.CleanupOutcome` | src/modules/otp/otp.service.ts:281-291 | exactly the expired codes go |
| `Otp.AcceptedInTime` | src/modules/otp/otp.service.ts:189-254 | an accepted code was given in full and is at most ten minutes old |
| `Otp.AcceptedAtMostOnce` | src/modules/otp/otp.service.ts:246-254 | in any run a code is accepted at most once |
| `Otp.RunKeeps` | src/modules/otp/otp.service.ts:84-291 | every run keeps counts at most five, locks beyond expiry, and an owner's stored codes a minute apart |
| `Otp.ExposedHasGuessLeft` | src/modules/otp/otp.service.ts:157-254 | a code that is compared has failed fewer than five times, because its lock outlives its expiry |
| `Otp.FiveWrongEver` | src/modules/otp/otp.service.ts:157-254 | in every run a code takes at most five wrong guesses, and from any state on at most what it has left |
| `Otp.CreationsAreSpaced` | src/modules/otp/otp.service.ts:115-148 | two codes of one user and purpose are never created less than 60 seconds apart, even with cleanup in between |
| `Otp.CreationsBound` | src/modules/otp/otp.service.ts:84-148 | so a span of T holds at most T/60 + 1 creations |
| `Otp.SpanBound` | src/modules/otp/otp.service.ts:84-291 | from any reachable state, wrong guesses for one user and purpose over T seconds are at most 5 * ((T + 600)/60 + 1) |
| `Otp.GuessBudget` | src/modules/otp/otp.service.ts:157-254 | wrong guesses of any continuation are at most what the stored codes are good for, in the order in which they are uncovered, plus five per new code |
| `Otp.AllOfReachIsSpent` | src/modules/otp/otp.service.ts:157-254 | and all of that can be spent within one millisecond |
| `Otp.FivePerMinuteIff` | src/modules/otp/otp.service.ts:157-254 | 5 * (T/60 + 1) bounds every continuation if and only if the span starts with no code open to guesses, or in the millisecond of a request with codes good for at most five |
| `Otp.WholeRunBound` | src/modules/otp/otp.service.ts:84-291 | and so it bounds every run of the whole system |
| `Otp.OneCodeIsEnoughToExceed` | src/modules/otp/otp.service.ts:157-254 | one millisecond after the first code some continuation exceeds it |
| `Otp.OtpService.ValidateCooldown` | src/modules/otp/otp.service.ts:115-148 | refuses exactly while the newest code is younger than 60 seconds |
| `Otp.OtpService.CreateOtpCode` | src/modules/otp/otp.service.ts:84-107 | stores the specified code or refuses, and keeps the invariant |
| `Otp.OtpService.VerifyOtp` | src/modules/otp/otp.service.ts:157-254 | table and reply are the specified ones, and the invariant is kept |
| `Otp.OtpService.CleanupExpiredOtps` | src/modules/otp/otp.service.ts:281-291 | deletes and counts exactly the expired codes |

## Left out

- Isolation and partial commits: inner `$transaction` calls of a service method commit on their own in the source; the model treats each method as one all-or-nothing step and has no interleavings inside a method.
- Time zones, daylight saving and `setHours` on local time; all times are on one clock, and the date of a booking is a UTC day.
- IEEE double error: `Number(...)` arithmetic on amounts and percentages is exact in the model; overflow of DECIMAL(10,2) is not modelled.
- SettingsOutcome: settings are one record that is refused as a whole for negative rates or refund percentages outside 0 to 100; the source stores key by key, refuses rates outside 0 to 100 and deposit percentages below some field's rate, and accepts any refund percentage.
- Gateway calls, signatures, JWT signing and access-token blacklisting: a webhook is an input value, the signature check of a refresh token a Boolean; the QR image failing to be stored is a Boolean too.
- The Paymob redirect callback and the dev-confirm endpoint, and gateways that answer SUCCESS on initiation, other than the wallet: they complete a payment apart from the booking step.
- InitiateDeposit: the wallet gateway, which the source accepts here although it debits the player at once and leaves payment and booking pending, is refused.
- `topupUserWallet`, and payouts by an admin as services of their own: `MoveWallet` stands for every wallet movement that no booking explains.
- `deleteField` refunds: paid even for unpaid bookings and without the platform wallet.
- Taking and releasing the admin's review lock, counting upload attempts and fraud scores: whether another admin's lock is in force and whether attempts are left are parameters (`reviewed`, `attemptsLeft`); the LOCKED status is read but written by no method.
- UploadScreenshot: an upload after the payment's own deadline, which expires the payment and reports an error, appears as the `EExpirePayment` event, and that event is allowed whenever the source might take it.
- The timeout and no-show jobs of src/modules/jobs/processors/bookings.processor.ts: guarded variants of the cron jobs that are modelled.
- `owner` is stored in the model's booking row, because fields do not change hands; payment, QR code and history rows are nested in their booking.
- Ids of bookings and withdrawal requests are table positions and ids of slots and codes are counted up; that random UUIDs never collide is assumed, and for tokens stated as `Fresh`.
- Which bookings refer to a slot is known in the booking tables only; in `Calendar` it is the parameter `referenced`.
- A non-positive slot duration, for which the source's tiling loop does not end: `SlotGenerator.HandleGeneration` requires a positive one.
- Whether a slot's start time parses (`timeAsText`) and whether a pending payment has a cached redirect URL (`cached`) depend on data the model does not hold and are parameters of those events.
- UpdateSlot: the event of the booking tables takes any new times and price; that they are proper and meet no other slot is modelled in `Calendar` only.
- A separate clock of the Redis server: `Throttle` expires keys by the clock that stamps requests.
- Notifications, email, SMS, logging, storage, i18n, pagination, reviews and dashboards.
- CheckIn: `checkInBooking` and `verifyBookingId` are one function, because they differ in messages only.
