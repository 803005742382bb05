/** Every step of every kind keeps the accounts in order, the failure writers included. */
module BookingSteps {
  import opened Wrappers
  import opened Money
  import opened Ledger
  import opened BookingStatus
  import opened Policy
  import opened BookingModel
  import opened BookingInvariants

  // ---------- one row ----------

  /** What one allowed transition does to the facts that the effects read off the history. */
  lemma AdvanceTrace(b: Booking, to: Status)
    requires IsTrace(b.history, b.status) && IsValidTransition(b.status, to)
    ensures IsTrace(Advance(b, to).history, to)
    ensures WasConfirmed(Advance(b, to)) <==> (if b.status == PendingPayment then to == Confirmed else WasConfirmed(b))
    ensures b.status == PendingPayment ==> !WasConfirmed(b)
    ensures b.status == Confirmed ==> WasConfirmed(b) && !WasRefunded(b) && !WasNoShow(b)
    ensures WasRefunded(Advance(b, to)) <==> WasRefunded(b) || (b.status == Confirmed && to == CancelledRefunded)
    ensures WasNoShow(Advance(b, to)) <==> WasNoShow(b) || to == NoShow
  {
    ChangeKeepsTrace(b.history, b.status, Change(Some(b.status), to));
    TraceEnds(b.history, b.status);
  }

  /** CHECKED_IN, COMPLETED and EXPIRED_NO_SHOW move no money. */
  lemma QuietAdvance(s: State, id: BookingId, to: Status, qr: Option<bool>)
    requires Accounted(s) && id < |s.bookings|
    requires IsValidTransition(s.bookings[id].status, to)
    requires to in {CheckedIn, Completed, ExpiredNoShow}
    ensures Accounted(Put(s, id, Advance(s.bookings[id], to).(qrUsed := qr)))
  {
    var b := s.bookings[id];
    assert BookingOk(b);
    AdvanceTrace(b, to);
    QuietPut(s, id, Advance(b, to).(qrUsed := qr));
  }

  lemma PaymentPut(s: State, id: BookingId, p: Payment)
    requires Accounted(s) && id < |s.bookings| && s.bookings[id].status == PendingPayment
    requires p.status == PayPending || p.status == PayFailed
    requires p.gateway == WalletBalance ==> p.status == PayFailed && !p.screenshot
    ensures Accounted(Put(s, id, s.bookings[id].(payment := Some(p))))
  {
    var b := s.bookings[id];
    assert BookingOk(b);
    TraceEnds(b.history, b.status);
    QuietPut(s, id, b.(payment := Some(p)));
  }

  lemma UploadKeeps(s: State, user: UserId, id: BookingId, attemptsLeft: bool)
    requires Accounted(s) && UploadScreenshot(s, user, id, attemptsLeft).Ok?
    ensures Accounted(UploadScreenshot(s, user, id, attemptsLeft).value)
  {
    var b := s.bookings[id];
    assert BookingOk(b);
    QuietPut(s, id, b.(payment := Some(b.payment.value.(screenshot := true, verification := Unverified))));
  }

  // ---------- confirmation ----------

  lemma ConfirmedRowOk(b: Booking, p: Payment, qr: Option<bool>)
    requires BookingOk(b) && b.status == PendingPayment && b.deposit > 0
    requires p.status == PayCompleted && (p.gateway == WalletBalance ==> !p.screenshot)
    ensures var c := Advance(b.(payment := Some(p)), Confirmed).(qrUsed := qr);
      && BookingOk(c)
      && PlatformEffect(c) == PlatformEffect(b) + b.deposit
      && OwnerEffect(c) == OwnerEffect(b) + b.deposit - b.commission
      && PlayerEffect(c) == PlayerEffect(b) - (if p.gateway == WalletBalance then b.deposit else 0)
      && Effect(DepositRows, c) == Effect(DepositRows, b) + 1 && Effect(RefundRows, c) == Effect(RefundRows, b)
  {
    AdvanceTrace(b.(payment := Some(p)), Confirmed);
  }

  /** What confirming moves: the deposit to the platform, the owner's share to the owner. */
  ghost predicate ConfirmMoved(s: State, t: State, b: Booking) {
    && WellKept(t.platform) && PlatformRows(t.platform.rows)
    && Explained(t.platform) == Explained(s.platform) + b.deposit
    && CountKind(t.platform.rows, BookingDeposit) == CountKind(s.platform.rows, BookingDeposit) + 1
    && CountKind(t.platform.rows, BookingRefund) == CountKind(s.platform.rows, BookingRefund)
    && WalletChanged(s.wallets, t.wallets, b.owner, b.deposit - b.commission)
  }

  lemma ConfirmMoves(s: State, id: BookingId, qr: bool)
    requires WellKept(s.platform) && PlatformRows(s.platform.rows) && AllKept(s.wallets)
    requires id < |s.bookings| && s.bookings[id].commission <= s.bookings[id].deposit
    requires ConfirmBooking(s, id, qr).Ok?
    ensures ConfirmMoved(s, ConfirmBooking(s, id, qr).value, s.bookings[id])
  {
    hide WellKept, Outside, CountKind, HalfAway, HalfDown;
    var b := s.bookings[id];
    var t := ConfirmBooking(s, id, qr).value;
    WholeCents(b.deposit);
    WholeCents(b.deposit - b.commission);
    CreditKeeps(s.platform, b.deposit as real, BookingDeposit);
    PlatformRowAdded(s.platform, t.platform);
    CreditWalletKeeps(s.wallets, b.owner, (b.deposit - b.commission) as real, BookingPayment);
  }

  lemma ConfirmedRows(s: State, id: BookingId, qr: bool)
    requires ConfirmBooking(s, id, qr).Ok?
    ensures var t := ConfirmBooking(s, id, qr).value;
      && id < |s.bookings| && s.bookings[id].deposit > 0
      && t == s.(platform := t.platform, wallets := t.wallets, bookings := t.bookings)
      && t.bookings == s.bookings[id := Advance(s.bookings[id], Confirmed).(qrUsed := if qr then Some(false) else None)]
  {
  }

  /**
   Confirming a booking whose payment `p` has just been completed; `u` is `s` with that payment recorded
   and, when the player's own wallet paid, the deposit already taken from it.
   */
  lemma ConfirmKeeps(s: State, u: State, id: BookingId, p: Payment, qr: bool)
    requires Accounted(s) && id < |s.bookings| && s.bookings[id].status == PendingPayment
    requires p.status == PayCompleted && (p.gateway == WalletBalance ==> !p.screenshot)
    requires u == Put(s, id, s.bookings[id].(payment := Some(p))).(wallets := u.wallets)
    requires WalletChanged(s.wallets, u.wallets, s.bookings[id].player,
                           if p.gateway == WalletBalance then -s.bookings[id].deposit else 0)
    requires ConfirmBooking(u, id, qr).Ok?
    ensures Accounted(ConfirmBooking(u, id, qr).value)
  {
    hide IsTrace, WellKept, Total, Outside, CountKind, HalfAway, HalfDown;
    var b := s.bookings[id];
    var t := ConfirmBooking(u, id, qr).value;
    assert BookingOk(b);
    ConfirmedRows(u, id, qr);
    ConfirmMoves(u, id, qr);
    hide ConfirmBooking;
    var c := Advance(b.(payment := Some(p)), Confirmed).(qrUsed := if qr then Some(false) else None);
    ConfirmedRowOk(b, p, c.qrUsed);
    assert t.bookings == s.bookings[id := c];
    BooksAfterPut(s, t, id, c);
  }

  lemma PayWithWalletKeeps(s: State, user: UserId, id: BookingId, now: int, qr: bool)
    requires Accounted(s) && PayWithWallet(s, user, id, now, qr).Ok?
    ensures Accounted(PayWithWallet(s, user, id, now, qr).value)
  {
    var b := s.bookings[id];
    if PaymentGate(s, user, id, now) == Ok(true) {
      assert s.bookings[id].status == PendingPayment && s.bookings[id].player == user;
      hide PaymentGate;
      WalletPaymentKeeps(s, user, id, qr);
    }
  }

  lemma WalletPaymentKeeps(s: State, user: UserId, id: BookingId, qr: bool)
    requires Accounted(s) && id < |s.bookings| && s.bookings[id].status == PendingPayment && s.bookings[id].player == user
    ensures var b := s.bookings[id];
      var debit := DebitWallet(s.wallets, user, b.deposit as real, BookingPayment);
      if debit.Err? then Accounted(Put(s, id, b.(payment := Some(Payment(WalletBalance, PayFailed, Unverified, false)))))
      else
        var paid := Put(s, id, b.(payment := Some(Payment(WalletBalance, PayCompleted, Unverified, false))));
        var t := ConfirmBooking(paid.(wallets := debit.value), id, qr);
        t.Ok? ==> Accounted(t.value)
  {
    hide HalfAway, HalfDown;
    var b := s.bookings[id];
    var debit := DebitWallet(s.wallets, user, b.deposit as real, BookingPayment);
    if debit.Err? {
      PaymentPut(s, id, Payment(WalletBalance, PayFailed, Unverified, false));
    } else {
      var p := Payment(WalletBalance, PayCompleted, Unverified, false);
      var u := Put(s, id, b.(payment := Some(p))).(wallets := debit.value);
      WholeCents(b.deposit);
      DebitWalletKeeps(s.wallets, user, b.deposit as real, BookingPayment);
      if ConfirmBooking(u, id, qr).Ok? {
        ConfirmKeeps(s, u, id, p, qr);
      }
    }
  }

  lemma PaidByGatewayKeeps(s: State, id: BookingId, v: Verification, qr: bool)
    requires Accounted(s) && id < |s.bookings| && s.bookings[id].payment.Some?
    requires s.bookings[id].payment.value.status == PayPending || s.bookings[id].payment.value.screenshot
    requires ConfirmBooking(SetPayment(s, id, PayCompleted, v), id, qr).Ok?
    ensures Accounted(ConfirmBooking(SetPayment(s, id, PayCompleted, v), id, qr).value)
  {
    var b := s.bookings[id];
    assert BookingOk(b);
    var p := b.payment.value.(status := PayCompleted, verification := v);
    ConfirmKeeps(s, SetPayment(s, id, PayCompleted, v), id, p, qr);
  }

  // ---------- the failure writers ----------

  /** A late failure overwrites status and payment, but nothing that the effects read. */
  lemma FailedRowOk(b: Booking, p: Option<Payment>)
    requires BookingOk(b) && (p.Some? <==> b.payment.Some?)
    requires p == b.payment || p.value == b.payment.value.(status := PayFailed, verification := p.value.verification)
    ensures var c := FailedRow(b.(payment := p));
      BookingOk(c) && forall party :: Effect(party, c) == Effect(party, b)
  {
    ChangeKeepsTrace(b.history, b.status, LATE_FAILURE);
  }

  /** handlePaymentFailure keeps the accounts whatever the booking's status is. */
  lemma FailKeeps(s: State, id: BookingId)
    requires Accounted(s) && id < |s.bookings|
    ensures Accounted(FailBooking(s, id))
  {
    var b := s.bookings[id];
    assert BookingOk(b);
    FailedRowOk(b, b.payment);
    QuietPut(s, id, FailedRow(b));
    SetSlotKeepsAccounts(Put(s, id, FailedRow(b)), b.slot, Available);
  }

  /** So do the webhook's failure branch, rejectPayment and expirePayment, which fail the payment first. */
  lemma FailPaymentKeeps(s: State, id: BookingId, v: Verification)
    requires Accounted(s) && id < |s.bookings| && s.bookings[id].payment.Some?
    ensures Accounted(FailBooking(SetPayment(s, id, PayFailed, v), id))
  {
    var b := s.bookings[id];
    assert BookingOk(b);
    var p := b.payment.value.(status := PayFailed, verification := v);
    FailedRowOk(b, Some(p));
    var c := FailedRow(b.(payment := Some(p)));
    QuietPut(s, id, c);
    SetSlotKeepsAccounts(Put(s, id, c), b.slot, Available);
    assert SetPayment(s, id, PayFailed, v).bookings[id := c] == s.bookings[id := c];
  }

  /** Only matching rows, in ascending order, hence each at most once. */
  ghost predicate SelectsOnly(bs: seq<Booking>, q: Query, ids: seq<BookingId>) {
    && (forall k :: 0 <= k < |ids| ==> ids[k] < |bs| && Matches(q, bs[ids[k]]))
    && (forall k, l :: 0 <= k < l < |ids| ==> ids[k] < ids[l])
  }

  ghost predicate SelectsAll(bs: seq<Booking>, q: Query, ids: seq<BookingId>) {
    forall i :: 0 <= i < |bs| && Matches(q, bs[i]) ==> i in ids
  }

  /** A query selects every matching row, each once, and no other row. */
  lemma {:induction false} SelectExact(bs: seq<Booking>, q: Query)
    ensures SelectsOnly(bs, q, Select(bs, q))
    ensures SelectsAll(bs, q, Select(bs, q))
  {
    if bs != [] {
      SelectExact(bs[..|bs| - 1], q);
      SelectsOnlyOneMore(bs, q, Select(bs[..|bs| - 1], q));
      SelectsAllOneMore(bs, q, Select(bs[..|bs| - 1], q));
    }
  }

  lemma SelectsOnlyOneMore(bs: seq<Booking>, q: Query, ids: seq<BookingId>)
    requires bs != [] && SelectsOnly(bs[..|bs| - 1], q, ids)
    ensures SelectsOnly(bs, q, ids)
    ensures Matches(q, bs[|bs| - 1]) ==> SelectsOnly(bs, q, ids + [|bs| - 1])
  {
  }

  lemma SelectsAllOneMore(bs: seq<Booking>, q: Query, ids: seq<BookingId>)
    requires bs != [] && SelectsAll(bs[..|bs| - 1], q, ids)
    ensures SelectsAll(bs, q, ids + if Matches(q, bs[|bs| - 1]) then [|bs| - 1] else [])
  {
  }

  /** Failing a list of distinct bookings changes those rows only. */
  lemma {:induction false} FailEachRows(s: State, ids: seq<BookingId>)
    requires forall k :: 0 <= k < |ids| ==> ids[k] < |s.bookings|
    requires forall k, l :: 0 <= k < l < |ids| ==> ids[k] < ids[l]
    ensures var t := FailEach(s, ids);
      && |t.bookings| == |s.bookings|
      && (forall i :: 0 <= i < |s.bookings| ==>
            t.bookings[i] == if i in ids then FailedRow(s.bookings[i]) else s.bookings[i])
    decreases |ids|
  {
    if ids != [] {
      var n := |ids| - 1;
      FailEachRows(s, ids[..n]);
      assert ids[n] !in ids[..n];
      assert forall i :: i in ids <==> i in ids[..n] || i == ids[n];
    }
  }

  lemma {:induction false} FailEachKeeps(s: State, ids: seq<BookingId>)
    requires Accounted(s)
    ensures Accounted(FailEach(s, ids))
    decreases |ids|
  {
    if ids != [] {
      FailEachKeeps(s, ids[..|ids| - 1]);
      var before, id := FailEach(s, ids[..|ids| - 1]), ids[|ids| - 1];
      if id < |before.bookings| {
        FailKeeps(before, id);
      }
    }
  }

  /** The cron job fails every overdue unpaid booking, and touches no other. */
  lemma ExpireUnpaidExact(s: State, now: int)
    ensures var t := ExpireUnpaid(s, now);
      && |t.bookings| == |s.bookings|
      && forall i :: 0 <= i < |s.bookings| ==>
           t.bookings[i] == if Matches(Overdue(now), s.bookings[i]) then FailedRow(s.bookings[i]) else s.bookings[i]
  {
    var ids := Select(s.bookings, Overdue(now));
    SelectExact(s.bookings, Overdue(now));
    FailEachRows(s, ids);
    forall i | 0 <= i < |s.bookings|
      ensures i in ids <==> Matches(Overdue(now), s.bookings[i])
    {
    }
  }

  lemma {:induction false} NoShowEachRows(s: State, ids: seq<BookingId>)
    requires forall k :: 0 <= k < |ids| ==> ids[k] < |s.bookings| && s.bookings[ids[k]].status == Confirmed
    requires forall k, l :: 0 <= k < l < |ids| ==> ids[k] < ids[l]
    ensures var t := NoShowEach(s, ids);
      && t == s.(bookings := t.bookings) && |t.bookings| == |s.bookings|
      && (forall i :: 0 <= i < |s.bookings| ==>
            t.bookings[i] == if i in ids then Advance(s.bookings[i], ExpiredNoShow) else s.bookings[i])
    decreases |ids|
  {
    if ids != [] {
      var n := |ids| - 1;
      NoShowEachRows(s, ids[..n]);
      assert ids[n] !in ids[..n];
      assert forall i :: i in ids <==> i in ids[..n] || i == ids[n];
    }
  }

  lemma {:induction false} NoShowEachKeeps(s: State, ids: seq<BookingId>)
    requires Accounted(s)
    requires forall k :: 0 <= k < |ids| ==> ids[k] < |s.bookings| && s.bookings[ids[k]].status == Confirmed
    requires forall k, l :: 0 <= k < l < |ids| ==> ids[k] < ids[l]
    ensures Accounted(NoShowEach(s, ids))
    decreases |ids|
  {
    if ids != [] {
      var shorter, id := ids[..|ids| - 1], ids[|ids| - 1];
      NoShowEachKeeps(s, shorter);
      NoShowEachRows(s, shorter);
      assert id !in shorter;
      var before := NoShowEach(s, shorter);
      QuietAdvance(before, id, ExpiredNoShow, before.bookings[id].qrUsed);
    }
  }

  /** The other cron job expires every confirmed booking past its end, and moves no money and no slot. */
  lemma ExpireNoShowsExact(s: State, now: int)
    ensures var t := ExpireNoShows(s, now);
      && t == s.(bookings := t.bookings) && |t.bookings| == |s.bookings|
      && forall i :: 0 <= i < |s.bookings| ==>
           t.bookings[i] == if Matches(PastEnd(now), s.bookings[i]) then Advance(s.bookings[i], ExpiredNoShow)
                            else s.bookings[i]
  {
    var ids := Select(s.bookings, PastEnd(now));
    SelectExact(s.bookings, PastEnd(now));
    NoShowEachRows(s, ids);
    forall i | 0 <= i < |s.bookings|
      ensures i in ids <==> Matches(PastEnd(now), s.bookings[i])
    {
    }
  }

  lemma ExpireNoShowsKeeps(s: State, now: int)
    requires Accounted(s)
    ensures Accounted(ExpireNoShows(s, now))
  {
    SelectExact(s.bookings, PastEnd(now));
    NoShowEachKeeps(s, Select(s.bookings, PastEnd(now)));
  }

  lemma MarkPaymentFailedKeeps(s: State, id: BookingId)
    requires Accounted(s) && MarkPaymentFailed(s, id).Ok?
    ensures Accounted(MarkPaymentFailed(s, id).value)
  {
    FailKeeps(s, id);
    assert MarkPaymentFailed(s, id).value == FailBooking(s, id);
  }

  // ---------- cancellation ----------

  lemma QuoteOk(b: Booking, caller: UserId, now: int, s: Settings)
    requires 0 <= b.deposit && SettingsInRange(s)
    ensures var q := RefundQuote(b, caller, now, s);
      IsPercent(q.percent) && q.refund == PlayerGain(b.deposit, q.percent) && 0 <= q.refund <= b.deposit
  {
    var q := RefundQuote(b, caller, now, s);
    RefundBounds(b.deposit, q.percent);
  }

  /** The row a cancellation leaves; `paid` says whether the refund is paid out. */
  function CancelledRow(b: Booking, q: Quote, paid: bool): Booking {
    var c := Advance(b, if q.refund > 0 then CancelledRefunded else CancelledNoRefund)
             .(refundAmount := q.refund, refundPercent := q.percent);
    if paid && b.payment.Some? then c.(payment := Some(b.payment.value.(status := PayRefunded))) else c
  }

  lemma CancelledRowOk(b: Booking, q: Quote, paid: bool)
    requires BookingOk(b) && (b.status == PendingPayment || b.status == Confirmed)
    requires IsPercent(q.percent) && q.refund == PlayerGain(b.deposit, q.percent)
    requires paid <==> q.refund > 0 && IsPaid(b)
    requires paid ==> b.commission > 0
    ensures var c := CancelledRow(b, q, paid);
      && BookingOk(c)
      && PlatformEffect(c) == PlatformEffect(b) - (if paid then PlatformLoss(b.commission, q.percent) else 0)
      && OwnerEffect(c) == OwnerEffect(b) - (if paid then OwnerLoss(b.deposit, b.commission, q.percent) else 0)
      && PlayerEffect(c) == PlayerEffect(b) + (if paid then q.refund else 0)
      && Effect(DepositRows, c) == Effect(DepositRows, b)
      && Effect(RefundRows, c) == Effect(RefundRows, b) + (if paid then 1 else 0)
  {
    AdvanceTrace(b, if q.refund > 0 then CancelledRefunded else CancelledNoRefund);
  }

  ghost predicate RefundMoved(s: State, t: State, b: Booking, q: Quote) {
    && t == s.(wallets := t.wallets, platform := t.platform)
    && AllKept(t.wallets) && t.wallets.Keys == s.wallets.Keys
    && WellKept(t.platform) && PlatformRows(t.platform.rows)
    && Explained(t.platform) == Explained(s.platform) - PlatformLoss(b.commission, q.percent)
    && CountKind(t.platform.rows, BookingDeposit) == CountKind(s.platform.rows, BookingDeposit)
    && CountKind(t.platform.rows, BookingRefund) == CountKind(s.platform.rows, BookingRefund) + 1
    && (forall u :: u in s.wallets ==>
          Explained(t.wallets[u]) == Explained(s.wallets[u])
            + (if u == b.player then q.refund else 0)
            - (if u == b.owner then OwnerLoss(b.deposit, b.commission, q.percent) else 0))
  }

  lemma SharesOk(b: Booking, percent: real)
    requires 0 <= b.commission <= b.deposit && IsPercent(percent)
    ensures Share(b.commission, percent) > 0.0 ==> b.commission > 0
    ensures 0.0 <= Share(b.deposit - b.commission, percent)
    ensures Share(b.deposit - b.commission, percent) == 0.0 ==> OwnerLoss(b.deposit, b.commission, percent) == 0
  {
  }

  /** When a refund is paid out: the player and the owner have wallets, and platform and owner can bear their parts. */
  predicate CanRefund(s: State, b: Booking, q: Quote) {
    && q.refund > 0 && b.player in s.wallets
    && var platformPart, ownerPart := Share(b.commission, q.percent), Share(b.deposit - b.commission, q.percent);
    && platformPart > 0.0 && HalfAway(platformPart) <= s.platform.balance
    && (ownerPart > 0.0 ==> b.owner in s.wallets && HalfAway(ownerPart) <= s.wallets[b.owner].balance)
  }

  lemma PayRefundSucceedsIff(s: State, b: Booking, q: Quote)
    requires LedgersOk(s) && b.player != b.owner
    ensures PayRefund(s, b, q).Ok? <==> CanRefund(s, b, q)
  {
  }

  /** Paying a refund out moves the player's, the platform's and the owner's balance, and no other. */
  lemma PayRefundMoves(s: State, b: Booking, q: Quote)
    requires LedgersOk(s) && b.player != b.owner && 0 <= b.commission <= b.deposit && IsPercent(q.percent)
    requires PayRefund(s, b, q).Ok?
    ensures RefundMoved(s, PayRefund(s, b, q).value, b, q) && b.commission > 0
  {
    hide IsTrace, WellKept, Outside, CountKind, HalfAway, Share, IsPercent;
    var platformPart, ownerPart := Share(b.commission, q.percent), Share(b.deposit - b.commission, q.percent);
    SharesOk(b, q.percent);
    WholeCents(q.refund);
    CreditWalletKeeps(s.wallets, b.player, q.refund as real, Refund);
    DebitKeeps(s.platform, platformPart, BookingRefund);
    var credited := CreditWallet(s.wallets, b.player, q.refund as real, Refund);
    DebitWalletKeeps(credited.value, b.owner, ownerPart, Refund);
    PlatformRowAdded(s.platform, PayRefund(s, b, q).value.platform);
  }

  lemma CancelUnpaidKeeps(s: State, id: BookingId, q: Quote)
    requires Accounted(s) && id < |s.bookings| && IsPercent(q.percent)
    requires s.bookings[id].status == PendingPayment || s.bookings[id].status == Confirmed
    requires q.refund == PlayerGain(s.bookings[id].deposit, q.percent) && !(q.refund > 0 && IsPaid(s.bookings[id]))
    ensures Accounted(SetSlot(Put(s, id, CancelledRow(s.bookings[id], q, false)), s.bookings[id].slot, Available))
  {
    hide IsTrace, WellKept, Total, Outside, CountKind, HalfDown, Share, MathRound;
    var b := s.bookings[id];
    assert BookingOk(b);
    CancelledRowOk(b, q, false);
    var c := CancelledRow(b, q, false);
    var t := SetSlot(Put(s, id, c), b.slot, Available);
    BooksAfterPut(s, t, id, c);
  }

  lemma CancelPaidKeeps(s: State, m: State, id: BookingId, q: Quote)
    requires Accounted(s) && id < |s.bookings| && IsPercent(q.percent)
    requires s.bookings[id].status == PendingPayment || s.bookings[id].status == Confirmed
    requires q.refund == PlayerGain(s.bookings[id].deposit, q.percent) && q.refund > 0 && IsPaid(s.bookings[id])
    requires RefundMoved(s, m, s.bookings[id], q) && s.bookings[id].commission > 0
    ensures Accounted(SetSlot(Put(m, id, CancelledRow(s.bookings[id], q, true)), s.bookings[id].slot, Available))
  {
    hide IsTrace, WellKept, Total, Outside, CountKind, HalfDown, Share, MathRound;
    var b := s.bookings[id];
    assert BookingOk(b);
    CancelledRowOk(b, q, true);
    var c := CancelledRow(b, q, true);
    var t := SetSlot(Put(m, id, c), b.slot, Available);
    BooksAfterPut(s, t, id, c);
  }

  /** A successful cancellation, in one formula. */
  lemma CancelResult(s: State, caller: UserId, id: BookingId, now: int)
    requires CancelBooking(s, caller, id, now).Ok?
    ensures var b := s.bookings[id];
      var q := RefundQuote(b, caller, now, s.settings);
      if q.refund > 0 && IsPaid(b) then
        && PayRefund(s, b, q).Ok?
        && CancelBooking(s, caller, id, now).value
           == SetSlot(Put(PayRefund(s, b, q).value, id, CancelledRow(b, q, true)), b.slot, Available)
      else
        CancelBooking(s, caller, id, now).value == SetSlot(Put(s, id, CancelledRow(b, q, false)), b.slot, Available)
  {
  }

  lemma CancelKeeps(s: State, caller: UserId, id: BookingId, now: int)
    requires Accounted(s) && CancelBooking(s, caller, id, now).Ok?
    ensures Accounted(CancelBooking(s, caller, id, now).value)
  {
    var b := s.bookings[id];
    assert BookingOk(b);
    var q := RefundQuote(b, caller, now, s.settings);
    QuoteOk(b, caller, now, s.settings);
    CancelResult(s, caller, id, now);
    if q.refund > 0 && IsPaid(b) {
      PayRefundMoves(s, b, q);
      CancelPaidKeeps(s, PayRefund(s, b, q).value, id, q);
    } else {
      CancelUnpaidKeeps(s, id, q);
    }
  }

  // ---------- no-show, wallets, slots, settings ----------

  lemma NoShowRowOk(b: Booking)
    requires BookingOk(b) && b.status == Confirmed
    ensures var c := Advance(b, NoShow);
      && BookingOk(c)
      && PlatformEffect(c) == PlatformEffect(b) && PlayerEffect(c) == PlayerEffect(b)
      && Effect(DepositRows, c) == Effect(DepositRows, b) && Effect(RefundRows, c) == Effect(RefundRows, b)
      && OwnerEffect(c) == OwnerEffect(b) + b.commission
  {
    AdvanceTrace(b, NoShow);
  }

  lemma OnlyConfirmedIsNoShow(from: Status)
    ensures IsValidTransition(from, NoShow) <==> from == Confirmed
  {
  }

  lemma NoShowKeeps(s: State, caller: UserId, id: BookingId, now: int)
    requires Accounted(s) && MarkNoShow(s, caller, id, now).Ok?
    ensures Accounted(MarkNoShow(s, caller, id, now).value)
  {
    hide IsTrace, WellKept, Total, Outside, CountKind, HalfAway, HalfDown, CountNoShow, IsValidTransition;
    var b := s.bookings[id];
    assert BookingOk(b);
    assert b.status == Confirmed by {
      OnlyConfirmedIsNoShow(b.status);
    }
    NoShowRowOk(b);
    WholeCents(b.commission);
    CreditWalletKeeps(s.wallets, b.owner, b.commission as real, Compensation);
    var t := MarkNoShow(s, caller, id, now).value;
    BooksAfterPut(s, t, id, Advance(b, NoShow));
  }

  lemma {:induction false} MoneyKeeps(s: State, t: State)
    requires Accounted(s) && LedgersOk(t) && t == s.(wallets := t.wallets, platform := t.platform)
    requires Explained(t.platform) == Explained(s.platform) && t.wallets.Keys == s.wallets.Keys
    requires forall u :: u in s.wallets ==> Explained(t.wallets[u]) == Explained(s.wallets[u])
    requires CountKind(t.platform.rows, BookingDeposit) == CountKind(s.platform.rows, BookingDeposit)
    requires CountKind(t.platform.rows, BookingRefund) == CountKind(s.platform.rows, BookingRefund)
    ensures Accounted(t)
  {
  }

  lemma PlatformWithdrawKeeps(s: State, amount: real)
    requires Accounted(s) && PlatformWithdraw(s, amount).Ok?
    ensures Accounted(PlatformWithdraw(s, amount).value)
  {
    DebitKeeps(s.platform, amount, AdminWithdrawal);
    var t := PlatformWithdraw(s, amount).value;
    PlatformRowAdded(s.platform, t.platform);
    MoneyKeeps(s, t);
  }

  lemma MoveWalletKeeps(s: State, u: UserId, side: Side, kind: Kind, amount: real)
    requires Accounted(s) && MoveWallet(s, u, side, kind, amount).Ok?
    ensures Accounted(MoveWallet(s, u, side, kind, amount).value)
  {
    CreditWalletKeeps(s.wallets, u, amount, kind);
    DebitWalletKeeps(s.wallets, u, amount, kind);
    MoneyKeeps(s, MoveWallet(s, u, side, kind, amount).value);
  }

  lemma SettingsKeep(s: State, settings: Settings)
    requires Accounted(s) && ChangeSettings(s, settings).Ok?
    ensures Accounted(ChangeSettings(s, settings).value)
  {
  }

  lemma SlotTableKeeps(s: State, x: SlotId, slot: Slot)
    requires Accounted(s)
    ensures AddSlot(s, x, slot).Ok? ==> Accounted(AddSlot(s, x, slot).value)
    ensures UpdateSlot(s, x, slot).Ok? ==> Accounted(UpdateSlot(s, x, slot).value)
    ensures RemoveSlot(s, x).Ok? ==> Accounted(RemoveSlot(s, x).value)
  {
  }

  // ---------- any step, any run ----------

  /** The booking whose payment this event fails without looking at the booking's status. */
  function FailureTarget(s: State, e: Event): (r: Option<BookingId>)
    ensures r.Some? ==> r.value < |s.bookings| && s.bookings[r.value].payment.Some?
  {
    match e
    case EWebhook(id, n, _) =>
      if id < |s.bookings| && s.bookings[id].payment.Some? && s.bookings[id].payment.value.status == PayPending
         && n == Failure then Some(id) else None
    case EReject(id) =>
      if id < |s.bookings| && s.bookings[id].payment.Some?
         && s.bookings[id].payment.value.verification !in {Rejected, Approved} then Some(id) else None
    case EExpirePayment(id) => if id < |s.bookings| && s.bookings[id].payment.Some? then Some(id) else None
    case _ => None
  }

  lemma FailureStep(s: State, e: Event) returns (v: Verification)
    requires FailureTarget(s, e).Some?
    ensures var id := FailureTarget(s, e).value; Step(s, e) == FailBooking(SetPayment(s, id, PayFailed, v), id)
  {
    v := if e.EReject? then Rejected else if e.EExpirePayment? then Expired
         else s.bookings[e.id].payment.value.verification;
  }

  lemma PaymentStepKeeps(s: State, e: Event)
    requires Accounted(s) && Handle(s, e).Ok?
    requires e.EInitiate? || e.EDeposit? || e.EUpload? || e.EWalletPay?
    ensures Accounted(Step(s, e))
  {
    hide Accounted;
    match e
    case EInitiate(u, id, g, accepted, now) =>
      if Step(s, e) != s {
        PaymentPut(s, id, Payment(g, if accepted then PayPending else PayFailed, Unverified, false));
      }
    case EDeposit(u, id, g, cached, now) =>
      if Step(s, e) != s {
        PaymentPut(s, id, Step(s, e).bookings[id].payment.value);
      }
    case EUpload(u, id, attemptsLeft) => UploadKeeps(s, u, id, attemptsLeft);
    case EWalletPay(u, id, now, qr) => PayWithWalletKeeps(s, u, id, now, qr);
  }

  lemma NoticeStepKeeps(s: State, e: Event)
    requires Accounted(s) && Handle(s, e).Ok?
    requires e.EWebhook? || e.EApprove? || e.EReject? || e.EExpirePayment?
    ensures Accounted(Step(s, e))
  {
    hide Accounted;
    if FailureTarget(s, e).Some? {
      var v := FailureStep(s, e);
      FailPaymentKeeps(s, FailureTarget(s, e).value, v);
    } else if e.EApprove? {
      PaidByGatewayKeeps(s, e.id, Approved, e.qrStored);
    } else if e.EWebhook? && Step(s, e) != s {
      PaidByGatewayKeeps(s, e.id, s.bookings[e.id].payment.value.verification, e.qrStored);
    }
  }

  lemma BookingStepKeeps(s: State, e: Event)
    requires Accounted(s) && Handle(s, e).Ok?
    requires e.ECreate? || e.EMarkPaymentFailed? || e.EExpireUnpaid? || e.EExpireNoShows? || e.ECancel?
          || e.ECheckIn? || e.EScanQr? || e.ENoShow? || e.EComplete?
    ensures Accounted(Step(s, e))
  {
    hide Accounted;
    match e
    case ECreate(u, x, now, text) => CreateKeepsAccounts(s, u, x, now, text);
    case EMarkPaymentFailed(id) => MarkPaymentFailedKeeps(s, id);
    case EExpireUnpaid(now) => FailEachKeeps(s, Select(s.bookings, Overdue(now)));
    case EExpireNoShows(now) => ExpireNoShowsKeeps(s, now);
    case ECancel(u, id, now) => CancelKeeps(s, u, id, now);
    case ECheckIn(u, id, now) => QuietAdvance(s, id, CheckedIn, s.bookings[id].qrUsed);
    case EScanQr(u, id, now) => QuietAdvance(s, id, CheckedIn, Some(true));
    case ENoShow(u, id, now) => NoShowKeeps(s, u, id, now);
    case EComplete(id) => QuietAdvance(s, id, Completed, s.bookings[id].qrUsed);
  }

  lemma TableStepKeeps(s: State, e: Event)
    requires Accounted(s) && Handle(s, e).Ok?
    requires e.EPlatformWithdraw? || e.EMoveWallet? || e.ESettings? || e.EAddSlot? || e.EUpdateSlot? || e.ERemoveSlot?
    ensures Accounted(Step(s, e))
  {
    hide Accounted;
    match e
    case EPlatformWithdraw(amount) => PlatformWithdrawKeeps(s, amount);
    case EMoveWallet(u, side, kind, amount) => MoveWalletKeeps(s, u, side, kind, amount);
    case ESettings(settings) => SettingsKeep(s, settings);
    case EAddSlot(x, slot) => SlotTableKeeps(s, x, slot);
    case EUpdateSlot(x, slot) => SlotTableKeeps(s, x, slot);
    case ERemoveSlot(x) => SlotTableKeeps(s, x, Slot(0, 0, 0, 0, Available));
  }

  /** Every step of the system keeps the accounts in order, at whatever time it comes. */
  lemma StepKeepsAccounts(s: State, e: Event)
    requires Accounted(s)
    ensures Accounted(Step(s, e))
  {
    hide Accounted;
    if Handle(s, e).Ok? {
      if e.EInitiate? || e.EDeposit? || e.EUpload? || e.EWalletPay? {
        PaymentStepKeeps(s, e);
      } else if e.EWebhook? || e.EApprove? || e.EReject? || e.EExpirePayment? {
        NoticeStepKeeps(s, e);
      } else if e.EPlatformWithdraw? || e.EMoveWallet? || e.ESettings? || e.EAddSlot? || e.EUpdateSlot? || e.ERemoveSlot? {
        TableStepKeeps(s, e);
      } else {
        BookingStepKeeps(s, e);
      }
    }
  }

  lemma {:induction false} RunKeepsAccounts(s: State, es: seq<Event>)
    requires Accounted(s)
    ensures Accounted(Run(s, es))
    decreases |es|
  {
    if es != [] {
      StepKeepsAccounts(s, es[0]);
      RunKeepsAccounts(Step(s, es[0]), es[1..]);
    }
  }

  lemma {:induction false} RunSplits(s: State, es: seq<Event>, n: nat)
    requires n <= |es|
    ensures Run(s, es) == Run(Run(s, es[..n]), es[n..])
    decreases |es|
  {
    if n == 0 {
      assert es[..0] == [] && es[0..] == es;
    } else {
      assert es[..n][1..] == es[1..][..n - 1] && es[1..][n - 1..] == es[n..];
      RunSplits(Step(s, es[0]), es[1..], n - 1);
    }
  }
}
