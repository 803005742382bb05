/**
 What each booking operation does, read off the tables: exactly when it is accepted, every field it
 writes and everything it leaves alone. Durations are in milliseconds, money in cents.
 */
module BookingOutcomes {
  import opened Wrappers
  import opened Money
  import opened Ledger
  import opened BookingStatus
  import opened Policy
  import opened BookingModel
  import opened BookingInvariants
  import opened BookingSteps

  /** The nearest cent, away from zero from a half. */
  predicate IsNearestCent(cents: int, exact: real) {
    if exact >= 0.0 then exact - 0.5 < cents as real <= exact + 0.5 else exact - 0.5 <= cents as real < exact + 0.5
  }

  function PercentOf(cents: int, percent: real): real {
    cents as real * percent / 100.0
  }

  lemma StoredIsNearest(x: real)
    ensures IsNearestCent(HalfAway(x), x)
  {
  }

  // ---------- creation ----------

  /** Without the slot or its field no booking is accepted. */
  lemma CreateNeedsSlotAndField(s: State, user: UserId, x: SlotId, now: int, text: bool)
    requires x !in s.slots || s.slots[x].field !in s.fields
    ensures CreateBooking(s, user, x, now, text).Err?
  {
  }

  /** The percentage and the rate that apply: the field's own rate goes before the global one, and both have defaults. */
  predicate Applies(s: State, x: SlotId, percent: real, rate: real)
    requires x in s.slots && s.slots[x].field in s.fields
  {
    var own := s.fields[s.slots[x].field].commissionRate;
    && (s.settings.depositPercent.Some? ==> percent == s.settings.depositPercent.value)
    && (s.settings.depositPercent.None? ==> percent == 100.0)
    && (own.Some? ==> rate == own.value)
    && (own.None? && s.settings.globalRate.Some? ==> rate == s.settings.globalRate.value)
    && (own.None? && s.settings.globalRate.None? ==> rate == 10.0)
  }

  /** A booking is accepted exactly under these conditions; pricing refuses for the last two only. */
  lemma CreateAcceptedIff(s: State, user: UserId, x: SlotId, now: int, text: bool, percent: real, rate: real)
    requires x in s.slots && s.slots[x].field in s.fields && Applies(s, x, percent, rate)
    ensures CreateBooking(s, user, x, now, text).Ok? <==>
      && user in s.users && s.users[user].verified
      && !(s.users[user].suspendedUntil.Some? && s.users[user].suspendedUntil.value > now)
      && s.slots[x].status == Available && (text ==> s.slots[x].startsAt >= now + 1_800_000)
      && !s.fields[s.slots[x].field].deleted && s.fields[s.slots[x].field].owner != user
      && 0.0 <= percent <= 100.0
      && rate <= percent
  {
  }

  /** The new row and the booked slot; nothing else changes. */
  lemma CreateOutcome(s: State, user: UserId, x: SlotId, now: int, text: bool, percent: real, rate: real)
    requires x in s.slots && s.slots[x].field in s.fields && Applies(s, x, percent, rate)
    requires s.slots[x].price >= 0 && CreateBooking(s, user, x, now, text).Ok?
    ensures var t, slot := CreateBooking(s, user, x, now, text).value, s.slots[x];
      && |t.bookings| == |s.bookings| + 1
      && var b := t.bookings[|s.bookings|];
      && IsNearestCent(b.deposit, PercentOf(slot.price, percent))
      && IsNearestCent(b.commission, PercentOf(slot.price, rate))
      && b == Booking(user, s.fields[slot.field].owner, x, PendingPayment, [Change(None, PendingPayment)],
                      slot.price, b.deposit, b.commission, b.deposit - b.commission,
                      now + 900_000, slot.startsAt, slot.endsAt, 0, 0.0, None, None)
      && t == s.(bookings := s.bookings + [b], slots := s.slots[x := slot.(status := Booked)])
  {
    Prices(s.slots[x].price, s.fields[s.slots[x].field].commissionRate, s.settings, percent, rate);
    hide PriceBooking, IsNearestCent, PercentOf;
  }

  lemma Prices(total: int, own: Option<real>, s: Settings, percent: real, rate: real)
    requires total >= 0 && PriceBooking(total, own, s).Ok?
    requires percent == (if s.depositPercent.Some? then s.depositPercent.value else 100.0)
    requires rate == if own.Some? then own.value else if s.globalRate.Some? then s.globalRate.value else 10.0
    ensures var p := PriceBooking(total, own, s).value;
      && IsNearestCent(p.deposit, PercentOf(total, percent))
      && IsNearestCent(p.commission, PercentOf(total, rate))
      && p.ownerRevenue == p.deposit - p.commission
  {
    StoredIsNearest(Share(total, percent));
    StoredIsNearest(Share(total, rate));
    ShareIs(total, percent);
    ShareIs(total, rate);
    PriceFits(total, own, s);
    hide HalfAway, IsNearestCent, Share, PercentOf;
  }

  // ---------- confirmation and failure ----------

  /** The booking has what a confirmation needs. */
  predicate Confirmable(s: State, id: BookingId) {
    && id < |s.bookings| && s.bookings[id].status == PendingPayment && s.bookings[id].deposit > 0
    && (s.bookings[id].deposit > s.bookings[id].commission ==> s.bookings[id].owner in s.wallets)
  }

  function WithEntry(a: Account, kind: Kind, cents: int): Account {
    Account(a.balance + cents, a.rows + [Row(kind, Credit, cents, a.balance, a.balance + cents)])
  }

  /** The whole effect of a confirmation that leaves the payment `p`. */
  ghost predicate Confirms(s: State, t: State, id: BookingId, p: Option<Payment>, qr: bool)
    requires id < |s.bookings|
  {
    var b := s.bookings[id];
    var share := b.deposit - b.commission;
    && t == s.(bookings := t.bookings, platform := t.platform, wallets := t.wallets)
    && t.bookings == s.bookings[id := b.(payment := p, status := Confirmed,
                                         history := b.history + [Change(Some(PendingPayment), Confirmed)],
                                         qrUsed := if qr then Some(false) else None)]
    && t.platform == WithEntry(s.platform, BookingDeposit, b.deposit)
    && t.wallets == if share > 0 && b.owner in s.wallets
                    then s.wallets[b.owner := WithEntry(s.wallets[b.owner], BookingPayment, share)] else s.wallets
  }

  /** The whole effect of a failure that leaves the payment `p`, whatever the status was. */
  ghost predicate Fails(s: State, t: State, id: BookingId, p: Option<Payment>)
    requires id < |s.bookings|
  {
    var b := s.bookings[id];
    && t == s.(bookings := t.bookings, slots := t.slots)
    && t.bookings == s.bookings[id := b.(payment := p, status := PaymentFailed,
                                         history := b.history + [Change(Some(PendingPayment), PaymentFailed)])]
    && t.slots == if b.slot in s.slots then s.slots[b.slot := s.slots[b.slot].(status := Available)] else s.slots
  }

  lemma WholeCentEntry(a: Account, kind: Kind, cents: int)
    requires cents > 0
    ensures CreditAccount(a, cents as real, kind) == Ok(WithEntry(a, kind, cents))
  {
    WholeCents(cents);
    WholeCents(a.balance + cents);
    assert a.balance as real + cents as real == (a.balance + cents) as real;
  }

  lemma ConfirmOutcome(s: State, id: BookingId, qr: bool)
    ensures ConfirmBooking(s, id, qr).Ok? <==> Confirmable(s, id)
    ensures Confirmable(s, id) ==> Confirms(s, ConfirmBooking(s, id, qr).value, id, s.bookings[id].payment, qr)
  {
    if Confirmable(s, id) {
      var b := s.bookings[id];
      WholeCentEntry(s.platform, BookingDeposit, b.deposit);
      if b.deposit > b.commission {
        WholeCentEntry(s.wallets[b.owner], BookingPayment, b.deposit - b.commission);
      }
    }
    hide CreditAccount;
  }

  /** The same for a booking whose payment has just been set to `p`. */
  lemma PaidConfirmOutcome(s: State, u: State, id: BookingId, p: Payment, qr: bool)
    requires id < |s.bookings| && u == s.(bookings := s.bookings[id := s.bookings[id].(payment := Some(p))])
    ensures ConfirmBooking(u, id, qr).Ok? <==> Confirmable(s, id)
    ensures Confirmable(s, id) ==> Confirms(s, ConfirmBooking(u, id, qr).value, id, Some(p), qr)
  {
    ConfirmOutcome(u, id, qr);
    hide ConfirmBooking;
  }

  lemma FailPaymentOutcome(s: State, id: BookingId, v: Verification)
    requires id < |s.bookings| && s.bookings[id].payment.Some?
    ensures Fails(s, FailBooking(SetPayment(s, id, PayFailed, v), id), id,
                  Some(s.bookings[id].payment.value.(status := PayFailed, verification := v)))
  {
  }

  // ---------- notices and reviews ----------

  /** The existing payment of a booking. */
  predicate HasPayment(s: State, id: BookingId) {
    id < |s.bookings| && s.bookings[id].payment.Some?
  }

  /** A notice acts on a pending payment only: SUCCESS confirms or is refused, FAILED fails, PENDING waits. */
  lemma WebhookOutcome(s: State, id: BookingId, n: Notification, qr: bool)
    ensures var out := Webhook(s, id, n, qr);
      if !HasPayment(s, id) then out == Err(NotFound)
      else
        var p := s.bookings[id].payment.value;
        if p.status != PayPending || n == StillPending then out == Ok(s)
        else if n == Failure then out.Ok? && Fails(s, out.value, id, Some(p.(status := PayFailed)))
        else (out.Ok? <==> Confirmable(s, id))
             && (out.Ok? ==> Confirms(s, out.value, id, Some(p.(status := PayCompleted)), qr))
  {
    if HasPayment(s, id) {
      var p := s.bookings[id].payment.value;
      PaidConfirmOutcome(s, SetPayment(s, id, PayCompleted, p.verification), id, p.(status := PayCompleted), qr);
      FailPaymentOutcome(s, id, p.verification);
    }
    hide ConfirmBooking, FailBooking, Confirms, Fails;
  }

  lemma ApproveOutcome(s: State, id: BookingId, reviewed: bool, qr: bool)
    ensures var out := ApprovePayment(s, id, reviewed, qr);
      && (out.Ok? <==>
            && HasPayment(s, id) && Confirmable(s, id) && !reviewed && s.bookings[id].payment.value.screenshot
            && (s.bookings[id].payment.value.verification == Unverified || s.bookings[id].payment.value.verification == Locked))
      && (out.Ok? ==>
            Confirms(s, out.value, id, Some(s.bookings[id].payment.value.(status := PayCompleted, verification := Approved)), qr))
  {
    if HasPayment(s, id) {
      PaidConfirmOutcome(s, SetPayment(s, id, PayCompleted, Approved), id,
                         s.bookings[id].payment.value.(status := PayCompleted, verification := Approved), qr);
    }
    hide ConfirmBooking, Confirms;
  }

  /** A rejection is refused for reviewed payments only, an expiry never; both fail the booking, whatever its status. */
  lemma RejectOutcome(s: State, id: BookingId)
    ensures RejectPayment(s, id).Ok? <==>
      && HasPayment(s, id)
      && s.bookings[id].payment.value.verification != Rejected && s.bookings[id].payment.value.verification != Approved
    ensures RejectPayment(s, id).Ok? ==>
      Fails(s, RejectPayment(s, id).value, id,
            Some(s.bookings[id].payment.value.(status := PayFailed, verification := Rejected)))
    ensures ExpirePayment(s, id).Ok? <==> HasPayment(s, id)
    ensures ExpirePayment(s, id).Ok? ==>
      Fails(s, ExpirePayment(s, id).value, id,
            Some(s.bookings[id].payment.value.(status := PayFailed, verification := Expired)))
  {
    if HasPayment(s, id) {
      FailPaymentOutcome(s, id, Rejected);
      FailPaymentOutcome(s, id, Expired);
    }
    hide FailBooking, Fails;
  }

  // ---------- payments ----------

  predicate Payable(s: State, user: UserId, id: BookingId, now: int) {
    && id < |s.bookings| && s.bookings[id].player == user && s.bookings[id].status == PendingPayment
    && now <= s.bookings[id].deadline
  }

  /** The player's request that a pending or completed payment already answers. */
  predicate AlreadyAnswered(s: State, user: UserId, id: BookingId) {
    && HasPayment(s, id) && s.bookings[id].player == user
    && (s.bookings[id].payment.value.status == PayPending || s.bookings[id].payment.value.status == PayCompleted)
  }

  lemma InitiateOutcome(s: State, user: UserId, id: BookingId, g: Gateway, accepted: bool, now: int)
    ensures var out := InitiatePayment(s, user, id, g, accepted, now);
      var known := user in s.users && s.users[user].verified;
      && (out.Ok? <==> known && g != WalletBalance
                       && (AlreadyAnswered(s, user, id) || (Payable(s, user, id, now) && s.bookings[id].payment.None?)))
      && (out.Ok? && AlreadyAnswered(s, user, id) ==> out.value == s)
      && (out.Ok? && !AlreadyAnswered(s, user, id) ==>
            var p := Payment(g, if accepted then PayPending else PayFailed, Unverified, false);
            out.value == s.(bookings := s.bookings[id := s.bookings[id].(payment := Some(p))]))
  {
  }

  lemma DepositOutcome(s: State, user: UserId, id: BookingId, g: Gateway, cached: bool, now: int)
    ensures var out := InitiateDeposit(s, user, id, g, cached, now);
      && (out.Ok? <==> Payable(s, user, id, now) && g != WalletBalance)
      && (out.Ok? ==>
            var b := s.bookings[id];
            if b.payment.Some? && b.payment.value.status == PayPending && cached then out.value == s
            else out.value == s.(bookings := s.bookings[id := b.(payment := Some(
                   if b.payment.Some? then b.payment.value.(gateway := g, status := PayPending)
                   else Payment(g, PayPending, Unverified, false)))]))
  {
  }

  lemma UploadOutcome(s: State, user: UserId, id: BookingId, attemptsLeft: bool)
    ensures var out := UploadScreenshot(s, user, id, attemptsLeft);
      && (out.Ok? <==>
            && HasPayment(s, id) && s.bookings[id].player == user && attemptsLeft
            && var p := s.bookings[id].payment.value;
            && p.status == PayPending && (p.gateway == VodafoneCash || p.gateway == InstaPay)
            && p.verification != Approved && !(p.screenshot && p.verification == Unverified))
      && (out.Ok? ==>
            out.value == s.(bookings := s.bookings[id := s.bookings[id].(payment := Some(
              s.bookings[id].payment.value.(screenshot := true, verification := Unverified)))]))
  {
  }

  /** Paying from the wallet debits the player first, and records a failed payment when the wallet refuses. */
  lemma WalletPayOutcome(s: State, user: UserId, id: BookingId, now: int, qr: bool)
    ensures var out := PayWithWallet(s, user, id, now, qr);
      var known := user in s.users && s.users[user].verified;
      if !known then out.Err?
      else if AlreadyAnswered(s, user, id) then out == Ok(s)
      else if !Payable(s, user, id, now) || s.bookings[id].payment.Some? then out.Err?
      else
        var b := s.bookings[id];
        if b.deposit <= 0 || user !in s.wallets || b.deposit > s.wallets[user].balance then
          out == Ok(s.(bookings := s.bookings[id := b.(payment := Some(Payment(WalletBalance, PayFailed, Unverified, false)))]))
        else
          var w := s.wallets[user];
          var after := Account(w.balance - b.deposit, w.rows + [Row(BookingPayment, Debit, b.deposit, w.balance, w.balance - b.deposit)]);
          var debited := s.(wallets := s.wallets[user := after]);
          && (out.Ok? <==> Confirmable(debited, id))
          && (out.Ok? ==> Confirms(debited, out.value, id, Some(Payment(WalletBalance, PayCompleted, Unverified, false)), qr))
  {
    if Payable(s, user, id, now) {
      var b := s.bookings[id];
      WholeCents(b.deposit);
      if user in s.wallets {
        var w := s.wallets[user];
        WholeCents(w.balance - b.deposit);
        assert w.balance as real - b.deposit as real == (w.balance - b.deposit) as real;
        var debit := DebitAccount(w, b.deposit as real, BookingPayment);
        if debit.Ok? {
          var u := s.(wallets := s.wallets[user := debit.value]);
          var p := Payment(WalletBalance, PayCompleted, Unverified, false);
          PaidConfirmOutcome(u, Put(s, id, b.(payment := Some(p))).(wallets := u.wallets), id, p, qr);
        }
      }
    }
    hide ConfirmBooking, Confirms, HalfAway;
  }

  // ---------- cancellation ----------

  /** What the settings grant: all of the deposit to an owner, the policy's percentage of it, to the nearest cent, to a player. */
  predicate IsDue(b: Booking, caller: UserId, now: int, p: RefundPolicy, percent: real, refund: int) {
    && (if caller == b.owner then percent == 100.0 && refund == b.deposit
        else if (b.startsAt - now) as real > p.thresholdMaxH * 3_600_000.0 then percent == p.refundMax
        else if (b.startsAt - now) as real > p.thresholdMinH * 3_600_000.0 then percent == p.refundMin
        else percent == p.refundZero)
    && PercentOf(b.deposit, percent) - 0.5 < refund as real <= PercentOf(b.deposit, percent) + 0.5
  }

  lemma QuoteIsDue(b: Booking, caller: UserId, now: int, s: Settings)
    ensures IsDue(b, caller, now, s.refunds, RefundQuote(b, caller, now, s).percent, RefundQuote(b, caller, now, s).refund)
  {
    WholeCents(b.deposit);
  }

  lemma DueIsUnique(b: Booking, caller: UserId, now: int, p: RefundPolicy, percent: real, refund: int, other: real, amount: int)
    requires IsDue(b, caller, now, p, percent, refund) && IsDue(b, caller, now, p, other, amount)
    ensures percent == other && refund == amount
  {
  }

  predicate MayCancel(s: State, caller: UserId, id: BookingId) {
    && caller in s.users && s.users[caller].verified && id < |s.bookings|
    && (caller == s.bookings[id].player || caller == s.bookings[id].owner)
    && (s.bookings[id].status == PendingPayment || s.bookings[id].status == Confirmed)
  }

  predicate PaysOut(b: Booking, refund: int) {
    refund > 0 && b.payment.Some? && b.payment.value.status == PayCompleted
  }

  /** The row, the slot and the payment that a cancellation with this refund leaves, beside the money it moves. */
  ghost predicate Cancels(s: State, t: State, id: BookingId, percent: real, refund: int)
    requires id < |s.bookings|
  {
    var b := s.bookings[id];
    var to := if refund > 0 then CancelledRefunded else CancelledNoRefund;
    && t == s.(bookings := t.bookings, slots := t.slots, wallets := t.wallets, platform := t.platform)
    && t.bookings == s.bookings[id := b.(status := to, history := b.history + [Change(Some(b.status), to)],
                                         refundAmount := refund, refundPercent := percent,
                                         payment := if PaysOut(b, refund) then Some(b.payment.value.(status := PayRefunded))
                                                    else b.payment)]
    && t.slots == (if b.slot in s.slots then s.slots[b.slot := s.slots[b.slot].(status := Available)] else s.slots)
    && (!PaysOut(b, refund) ==> t.wallets == s.wallets && t.platform == s.platform)
  }

  lemma DueIsQuoted(b: Booking, caller: UserId, now: int, s: Settings, percent: real, refund: int)
    requires IsDue(b, caller, now, s.refunds, percent, refund)
    ensures RefundQuote(b, caller, now, s) == Quote(percent, refund)
  {
    var q := RefundQuote(b, caller, now, s);
    QuoteIsDue(b, caller, now, s);
    DueIsUnique(b, caller, now, s.refunds, percent, refund, q.percent, q.refund);
  }

  /** Who may cancel when; a refund that is paid out must also go through. */
  lemma CancelAcceptedIff(s: State, caller: UserId, id: BookingId, now: int, percent: real, refund: int)
    requires MayCancel(s, caller, id) ==> IsDue(s.bookings[id], caller, now, s.settings.refunds, percent, refund)
    ensures CancelBooking(s, caller, id, now).Ok? <==>
      && MayCancel(s, caller, id)
      && (PaysOut(s.bookings[id], refund) ==> PayRefund(s, s.bookings[id], Quote(percent, refund)).Ok?)
  {
    if MayCancel(s, caller, id) {
      DueIsQuoted(s.bookings[id], caller, now, s.settings, percent, refund);
    }
    hide RefundQuote, IsDue, CreditWallet, DebitWallet, DebitAccount, Share;
  }

  /** A cancellation grants exactly what is due, and moves the money of that refund only. */
  lemma CancelOutcome(s: State, caller: UserId, id: BookingId, now: int, percent: real, refund: int)
    requires CancelBooking(s, caller, id, now).Ok?
    requires IsDue(s.bookings[id], caller, now, s.settings.refunds, percent, refund)
    ensures Cancels(s, CancelBooking(s, caller, id, now).value, id, percent, refund)
    ensures PaysOut(s.bookings[id], refund) ==>
      && PayRefund(s, s.bookings[id], Quote(percent, refund)).Ok?
      && CancelBooking(s, caller, id, now).value.wallets == PayRefund(s, s.bookings[id], Quote(percent, refund)).value.wallets
      && CancelBooking(s, caller, id, now).value.platform == PayRefund(s, s.bookings[id], Quote(percent, refund)).value.platform
  {
    DueIsQuoted(s.bookings[id], caller, now, s.settings, percent, refund);
    CancelResult(s, caller, id, now);
    hide CancelBooking, RefundQuote, IsDue, CreditWallet, DebitWallet, DebitAccount, Share;
  }

  predicate IsPaidOut(s: State, t: State, u: UserId, cents: int) {
    u in s.wallets && u in t.wallets && t.wallets[u].balance == s.wallets[u].balance + cents
  }

  lemma DuePercent(b: Booking, caller: UserId, now: int, s: Settings, percent: real, refund: int)
    requires SettingsInRange(s) && IsDue(b, caller, now, s.refunds, percent, refund)
    ensures 0.0 <= percent <= 100.0
  {
  }

  lemma RefundOfBooking(s: State, id: BookingId, percent: real, refund: int)
    requires Accounted(s) && id < |s.bookings| && 0.0 <= percent <= 100.0
    requires PayRefund(s, s.bookings[id], Quote(percent, refund)).Ok?
    ensures var b, t := s.bookings[id], PayRefund(s, s.bookings[id], Quote(percent, refund)).value;
      && RefundMovesBy(s, t, b, refund, PercentOf(b.commission, percent), PercentOf(b.deposit - b.commission, percent))
      && IsPaidOut(s, t, b.player, refund)
  {
    assert BookingOk(s.bookings[id]);
    RefundOutcome(s, s.bookings[id], percent, refund);
    hide PayRefund, PercentOf, Accounted, BookingOk;
  }

  /** In a reachable state: the refund recorded in the row is what the player's wallet gains, to the cent. */
  lemma CancelPaysThePlayer(s: State, t: State, caller: UserId, id: BookingId, now: int, percent: real, refund: int)
    requires Accounted(s) && CancelBooking(s, caller, id, now) == Ok(t)
    requires IsDue(s.bookings[id], caller, now, s.settings.refunds, percent, refund) && PaysOut(s.bookings[id], refund)
    ensures Cancels(s, t, id, percent, refund) && IsPaidOut(s, t, s.bookings[id].player, refund)
    ensures var b := s.bookings[id];
      RefundMovesBy(s, s.(wallets := t.wallets, platform := t.platform), b, refund,
                    PercentOf(b.commission, percent), PercentOf(b.deposit - b.commission, percent))
  {
    DuePercent(s.bookings[id], caller, now, s.settings, percent, refund);
    CancelOutcome(s, caller, id, now, percent, refund);
    RefundOfBooking(s, id, percent, refund);
    hide CancelBooking, PayRefund, PercentOf, Cancels, Accounted, IsDue;
  }

  lemma ShareIs(cents: int, percent: real)
    ensures Share(cents, percent) == PercentOf(cents, percent)
  {
  }

  /** What the three movements of a refund do, for the parts `x` of the platform and `y` of the owner. */
  ghost predicate RefundMovesBy(s: State, t: State, b: Booking, refund: int, x: real, y: real) {
    && t == s.(wallets := t.wallets, platform := t.platform) && t.wallets.Keys == s.wallets.Keys
    && b.player in s.wallets && t.wallets[b.player] == WithEntry(s.wallets[b.player], Refund, refund)
    && x - 0.5 <= (s.platform.balance - t.platform.balance) as real < x + 0.5
    && (y > 0.0 ==>
          && b.owner in s.wallets
          && y - 0.5 <= (s.wallets[b.owner].balance - t.wallets[b.owner].balance) as real < y + 0.5)
    && (y == 0.0 && b.owner in s.wallets ==> t.wallets[b.owner] == s.wallets[b.owner])
    && (forall u :: u in s.wallets && u != b.player && u != b.owner ==> t.wallets[u] == s.wallets[u])
  }

  lemma DebitTakes(a: Account, amount: real, kind: Kind)
    requires WellKept(a) && DebitAccount(a, amount, kind).Ok?
    ensures amount - 0.5 <= (a.balance - DebitAccount(a, amount, kind).value.balance) as real < amount + 0.5
  {
    DebitKeeps(a, amount, kind);
    HalfDownIsNearest(amount);
  }

  lemma RefundMoves(s: State, b: Booking, q: Quote)
    requires LedgersOk(s) && b.player != b.owner && Share(b.deposit - b.commission, q.percent) >= 0.0
    requires PayRefund(s, b, q).Ok?
    ensures RefundMovesBy(s, PayRefund(s, b, q).value, b, q.refund, Share(b.commission, q.percent), Share(b.deposit - b.commission, q.percent))
  {
    hide Share, WellKept, CreditAccount, DebitAccount, WithEntry;
    var y := Share(b.deposit - b.commission, q.percent);
    WholeCentEntry(s.wallets[b.player], Refund, q.refund);
    DebitTakes(s.platform, Share(b.commission, q.percent), BookingRefund);
    if y > 0.0 {
      DebitTakes(s.wallets[b.owner], y, Refund);
    }
  }

  /**
   A refund that is paid out: the player's wallet grows by exactly the refund, platform and owner lose the
   same percentage of commission and share, each to the nearest cent and downwards from a half.
   */
  lemma RefundOutcome(s: State, b: Booking, percent: real, refund: int)
    requires LedgersOk(s) && b.player != b.owner && 0 <= b.commission <= b.deposit && 0.0 <= percent <= 100.0
    requires PayRefund(s, b, Quote(percent, refund)).Ok?
    ensures RefundMovesBy(s, PayRefund(s, b, Quote(percent, refund)).value, b, refund,
                          PercentOf(b.commission, percent), PercentOf(b.deposit - b.commission, percent))
  {
    ShareBounds(b.deposit - b.commission, percent);
    RefundMoves(s, b, Quote(percent, refund));
    ShareIs(b.commission, percent);
    ShareIs(b.deposit - b.commission, percent);
    hide *;
  }

  // ---------- attendance and completion ----------

  /** The row of booking `id` advances to `to`; nothing else changes but, if `qr` says so, its QR code. */
  ghost predicate OnlyAdvances(s: State, t: State, id: BookingId, to: Status, qr: Option<bool>)
    requires id < |s.bookings|
  {
    var b := s.bookings[id];
    t == s.(bookings := s.bookings[id := b.(status := to, history := b.history + [Change(Some(b.status), to)], qrUsed := qr)])
  }

  predicate OnItsDay(b: Booking, now: int) {
    b.startsAt / 86_400_000 == now / 86_400_000
  }

  lemma CheckInOutcome(s: State, caller: UserId, id: BookingId, now: int)
    ensures CheckIn(s, caller, id, now).Ok? <==>
      id < |s.bookings| && s.bookings[id].status == Confirmed && s.bookings[id].owner == caller && OnItsDay(s.bookings[id], now)
    ensures CheckIn(s, caller, id, now).Ok? ==>
      OnlyAdvances(s, CheckIn(s, caller, id, now).value, id, CheckedIn, s.bookings[id].qrUsed)
  {
  }

  lemma ScanOutcome(s: State, caller: UserId, id: BookingId, now: int)
    ensures ScanQr(s, caller, id, now).Ok? <==>
      id < |s.bookings| && s.bookings[id].status == Confirmed && s.bookings[id].owner == caller && OnItsDay(s.bookings[id], now)
      && s.bookings[id].qrUsed == Some(false)
    ensures ScanQr(s, caller, id, now).Ok? ==> OnlyAdvances(s, ScanQr(s, caller, id, now).value, id, CheckedIn, Some(true))
  {
  }

  /** Completion needs a check-in, a guarded payment failure an unpaid booking, whose slot it frees. */
  lemma StatusOutcome(s: State, id: BookingId)
    ensures var done := Handle(s, EComplete(id));
      && (done.Ok? <==> id < |s.bookings| && s.bookings[id].status == CheckedIn)
      && (done.Ok? ==> OnlyAdvances(s, done.value, id, Completed, s.bookings[id].qrUsed))
    ensures var failed := MarkPaymentFailed(s, id);
      && (failed.Ok? <==> id < |s.bookings| && s.bookings[id].status == PendingPayment)
      && (failed.Ok? ==> Fails(s, failed.value, id, s.bookings[id].payment))
  {
  }

  /** A no-show counts against the player, suspends at the third, and pays the commission to the owner. */
  lemma NoShowOutcome(s: State, caller: UserId, id: BookingId, now: int)
    ensures MarkNoShow(s, caller, id, now).Ok? <==>
      && id < |s.bookings| && s.bookings[id].status == Confirmed && s.bookings[id].owner == caller
      && s.bookings[id].player in s.users && (s.bookings[id].commission > 0 ==> caller in s.wallets)
    ensures MarkNoShow(s, caller, id, now).Ok? ==>
      var t, b := MarkNoShow(s, caller, id, now).value, s.bookings[id];
      var u := s.users[b.player];
      && OnlyAdvances(s.(users := t.users, wallets := t.wallets), t, id, NoShow, b.qrUsed)
      && t.users == s.users[b.player := User(u.verified, if u.noShows >= 2 then Some(now + 2_592_000_000) else u.suspendedUntil, u.noShows + 1)]
      && t.wallets == if b.commission > 0 then s.wallets[caller := WithEntry(s.wallets[caller], Compensation, b.commission)]
                      else s.wallets
  {
    if id < |s.bookings| && s.bookings[id].commission > 0 && s.bookings[id].owner in s.wallets {
      WholeCentEntry(s.wallets[s.bookings[id].owner], Compensation, s.bookings[id].commission);
    }
    hide CreditAccount, WithEntry;
  }

  // ---------- the jobs ----------

  predicate IsOverdue(b: Booking, now: int) {
    b.status == PendingPayment && b.deadline < now
  }

  ghost predicate Frees(bs: seq<Booking>, ids: seq<BookingId>, x: SlotId) {
    exists k :: 0 <= k < |ids| && ids[k] < |bs| && bs[ids[k]].slot == x
  }

  lemma FreesOneMore(bs: seq<Booking>, ids: seq<BookingId>, x: SlotId)
    requires ids != [] && ids[|ids| - 1] < |bs|
    ensures Frees(bs, ids, x) <==> Frees(bs, ids[..|ids| - 1], x) || bs[ids[|ids| - 1]].slot == x
  {
    var n := |ids| - 1;
    assert forall k :: 0 <= k < n ==> ids[..n][k] == ids[k];
  }

  lemma {:induction false} FailEachSlots(s: State, ids: seq<BookingId>)
    requires forall k :: 0 <= k < |ids| ==> ids[k] < |s.bookings|
    requires forall k, l :: 0 <= k < l < |ids| ==> ids[k] < ids[l]
    ensures var t := FailEach(s, ids);
      && t == s.(bookings := t.bookings, slots := t.slots) && t.slots.Keys == s.slots.Keys
      && (forall x :: x in s.slots ==>
            t.slots[x] == if Frees(s.bookings, ids, x) then s.slots[x].(status := Available) else s.slots[x])
    decreases |ids|
  {
    if ids != [] {
      hide Frees;
      var n := |ids| - 1;
      FailEachSlots(s, ids[..n]);
      FailEachRows(s, ids[..n]);
      assert ids[n] !in ids[..n];
      forall x | x in s.slots
        ensures Frees(s.bookings, ids, x) <==> Frees(s.bookings, ids[..n], x) || s.bookings[ids[n]].slot == x
      {
        FreesOneMore(s.bookings, ids, x);
      }
    } else {
      assert forall x :: !Frees(s.bookings, [], x);
    }
  }

  /** The unpaid bookings past their deadline fail and free their slots; nothing else changes. */
  lemma UnpaidJobOutcome(s: State, now: int)
    ensures var t := ExpireUnpaid(s, now);
      && t == s.(bookings := t.bookings, slots := t.slots) && |t.bookings| == |s.bookings| && t.slots.Keys == s.slots.Keys
      && (forall i :: 0 <= i < |s.bookings| ==>
            t.bookings[i] == if IsOverdue(s.bookings[i], now)
                             then s.bookings[i].(status := PaymentFailed,
                                                 history := s.bookings[i].history + [Change(Some(PendingPayment), PaymentFailed)])
                             else s.bookings[i])
      && (forall x :: x in s.slots ==>
            t.slots[x] == if exists i :: 0 <= i < |s.bookings| && s.bookings[i].slot == x && IsOverdue(s.bookings[i], now)
                          then s.slots[x].(status := Available) else s.slots[x])
  {
    var ids := Select(s.bookings, Overdue(now));
    SelectExact(s.bookings, Overdue(now));
    ExpireUnpaidExact(s, now);
    FailEachSlots(s, ids);
    hide FailEach, Select;
    forall x | x in s.slots
      ensures Frees(s.bookings, ids, x)
        <==> exists i :: 0 <= i < |s.bookings| && s.bookings[i].slot == x && IsOverdue(s.bookings[i], now)
    {
      if i :| 0 <= i < |s.bookings| && s.bookings[i].slot == x && IsOverdue(s.bookings[i], now) {
        assert Matches(Overdue(now), s.bookings[i]) && i in ids;
      }
    }
  }

  /** The confirmed bookings past their end become EXPIRED_NO_SHOW; nothing else changes. */
  lemma NoShowJobOutcome(s: State, now: int)
    ensures var t := ExpireNoShows(s, now);
      && t == s.(bookings := t.bookings) && |t.bookings| == |s.bookings|
      && (forall i :: 0 <= i < |s.bookings| ==>
            var b := s.bookings[i];
            t.bookings[i] == if b.status == Confirmed && b.endsAt < now
                             then b.(status := ExpiredNoShow, history := b.history + [Change(Some(Confirmed), ExpiredNoShow)])
                             else b)
  {
    ExpireNoShowsExact(s, now);
  }

  // ---------- money and tables outside bookings ----------

  /** The admin's withdrawal takes the nearest cent, downwards from a half, and needs the recorded amount to be there. */
  lemma PlatformWithdrawOutcome(s: State, amount: real)
    requires WellKept(s.platform)
    ensures PlatformWithdraw(s, amount).Ok? ==>
      var t := PlatformWithdraw(s, amount).value;
      var taken := s.platform.balance - t.platform.balance;
      && amount > 0.0 && t == s.(platform := t.platform) && t.platform.balance >= 0
      && amount - 0.5 <= taken as real < amount + 0.5
      && exists recorded :: IsNearestCent(recorded, amount)
           && t.platform.rows == s.platform.rows + [Row(AdminWithdrawal, Debit, recorded, s.platform.balance, t.platform.balance)]
    ensures PlatformWithdraw(s, amount).Ok? <==>
      amount > 0.0 && forall recorded :: IsNearestCent(recorded, amount) ==> recorded <= s.platform.balance
  {
    DebitKeeps(s.platform, amount, AdminWithdrawal);
    HalfDownIsNearest(amount);
    StoredIsNearest(amount);
    assert forall recorded :: IsNearestCent(recorded, amount) ==> recorded == HalfAway(amount);
    hide HalfDown, WellKept, HalfAway, Outside, CountKind;
  }

  /** Slot rows outside the life of a booking: which changes are accepted, and that they touch one slot only. */
  lemma SlotTableOutcome(s: State, x: SlotId, row: Slot)
    ensures AddSlot(s, x, row).Ok? <==> x !in s.slots && row.price >= 0
    ensures AddSlot(s, x, row).Ok? ==> AddSlot(s, x, row).value == s.(slots := s.slots[x := row.(status := Available)])
    ensures UpdateSlot(s, x, row).Ok? <==> x in s.slots && s.slots[x].status != Booked && row.price >= 0
    ensures UpdateSlot(s, x, row).Ok? ==>
      UpdateSlot(s, x, row).value == s.(slots := s.slots[x := Slot(s.slots[x].field, row.startsAt, row.endsAt, row.price, s.slots[x].status)])
    ensures RemoveSlot(s, x).Ok? <==>
      x in s.slots && s.slots[x].status != Booked && forall i :: 0 <= i < |s.bookings| ==> s.bookings[i].slot != x
    ensures RemoveSlot(s, x).Ok? ==> RemoveSlot(s, x).value == s.(slots := s.slots - {x})
  {
  }

  /** A payout or restoring moves one wallet by the nearest cent, with one row of its kind; bookings' own kinds are refused. */
  lemma MoveWalletOutcome(s: State, u: UserId, side: Side, kind: Kind, amount: real)
    requires u in s.wallets ==> WellKept(s.wallets[u])
    ensures MoveWallet(s, u, side, kind, amount).Ok? ==>
      var t := MoveWallet(s, u, side, kind, amount).value;
      && IsOutside(kind) && amount > 0.0 && u in s.wallets && u in t.wallets
      && var before, after := s.wallets[u].balance, t.wallets[u].balance;
      && t == s.(wallets := s.wallets[u := t.wallets[u]])
      && (exists recorded :: IsNearestCent(recorded, amount)
            && t.wallets[u].rows == s.wallets[u].rows + [Row(kind, side, recorded, before, after)])
      && (side == Credit ==> IsNearestCent(after - before, amount))
      && (side == Debit ==> amount - 0.5 <= (before - after) as real < amount + 0.5 && after >= 0)
  {
    if u in s.wallets && amount > 0.0 {
      StoredIsNearest(amount);
      CreditRow(s.wallets[u], amount, kind);
      DebitRow(s.wallets[u], amount, kind);
      HalfDownIsNearest(amount);
    }
    hide HalfAway, HalfDown, WellKept, CreditAccount, DebitAccount, OnHalfCent;
  }

  /** Settings in range are stored, and nothing else changes. */
  lemma SettingsOutcome(s: State, settings: Settings)
    ensures ChangeSettings(s, settings).Ok? <==> SettingsInRange(settings)
    ensures ChangeSettings(s, settings).Ok? ==> ChangeSettings(s, settings).value == s.(settings := settings)
  {
  }

  // ---------- refusals ----------

  predicate IsKnown(s: State, user: UserId) {
    user in s.users && s.users[user].verified
  }

  /** Bookings that do not exist are not found, and other people's are forbidden. */
  lemma Refusals(s: State, user: UserId, id: BookingId, now: int, g: Gateway, accepted: bool)
    ensures id >= |s.bookings| ==>
      && CheckIn(s, user, id, now) == MarkNoShow(s, user, id, now) == ScanQr(s, user, id, now) == Err(NotFound)
      && (IsKnown(s, user) ==> CancelBooking(s, user, id, now) == Err(NotFound))
      && (IsKnown(s, user) && g != WalletBalance ==> InitiatePayment(s, user, id, g, accepted, now) == Err(NotFound))
    ensures id < |s.bookings| && user != s.bookings[id].owner ==>
      && CheckIn(s, user, id, now) == MarkNoShow(s, user, id, now) == Err(Forbidden)
      && (IsKnown(s, user) && user != s.bookings[id].player ==> CancelBooking(s, user, id, now) == Err(Forbidden))
    ensures id < |s.bookings| && user != s.bookings[id].player && IsKnown(s, user) && g != WalletBalance ==>
      InitiatePayment(s, user, id, g, accepted, now) == Err(Forbidden)
    ensures Payable(s, user, id, now) && IsKnown(s, user) && g != WalletBalance && HasPayment(s, id) && !AlreadyAnswered(s, user, id) ==>
      InitiatePayment(s, user, id, g, accepted, now) == Err(Conflict)
  {
    hide RefundQuote, PayRefund, CreditWallet;
  }

  /** A slot that does not exist is not found, for a user who may book at all. */
  lemma CreateRefusals(s: State, user: UserId, x: SlotId, now: int, text: bool)
    requires IsKnown(s, user) && s.users[user].suspendedUntil.None?
    ensures x !in s.slots ==> CreateBooking(s, user, x, now, text) == Err(NotFound)
    ensures x in s.slots && s.slots[x].status != Available ==> CreateBooking(s, user, x, now, text) == Err(BadRequest)
    ensures x in s.slots && s.slots[x].status == Available && !text && s.slots[x].field !in s.fields ==>
      CreateBooking(s, user, x, now, text) == Err(NotFound)
  {
  }
}
