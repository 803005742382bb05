/** What happens to a booking's row and its history, whatever the event. */
module BookingHistories {
  import opened Wrappers
  import opened Ledger
  import opened BookingStatus
  import opened Policy
  import opened BookingModel
  import opened BookingInvariants
  import opened BookingSteps
  import opened BookingSlots

  // ---------- what no event can undo ----------

  /** The row `a` became `b`: by an allowed transition with its history row, by a late failure, or without either. */
  ghost predicate RowMoves(a: Booking, b: Booking, late: bool) {
    || (b.history == a.history && b.status == a.status)
    || (IsValidTransition(a.status, b.status) && b.history == a.history + [Change(Some(a.status), b.status)])
    || (late && b.status == PaymentFailed && b.history == a.history + [LATE_FAILURE])
  }

  predicate IsSettled(b: Booking) {
    b.status != PendingPayment && b.payment.Some? && b.payment.value.status != PayPending
  }

  ghost predicate RowGrows(s: State, t: State, i: BookingId, late: bool)
    requires i < |s.bookings|
  {
    && i < |t.bookings|
    && RowMoves(s.bookings[i], t.bookings[i], late)
    && (IsSettled(s.bookings[i]) ==> IsSettled(t.bookings[i]))
  }

  lemma ConfirmGrows(s: State, id: BookingId, p: Payment, ws: map<UserId, Account>, qr: bool, i: BookingId)
    requires i < |s.bookings| && id < |s.bookings| && p.status == PayCompleted
    ensures var u := Put(s, id, s.bookings[id].(payment := Some(p))).(wallets := ws);
      ConfirmBooking(u, id, qr).Ok? ==> RowGrows(s, ConfirmBooking(u, id, qr).value, i, false)
  {
  }

  lemma NoticeGrows(s: State, e: Event, i: BookingId)
    requires i < |s.bookings| && Handle(s, e).Ok? && (e.EWebhook? || e.EApprove?) && FailureTarget(s, e).None?
    ensures RowGrows(s, Step(s, e), i, false)
  {
    hide ConfirmBooking;
    var p := s.bookings[e.id].payment.value;
    if e.EApprove? || (p.status == PayPending && e.notification == Success) {
      var paid := p.(status := PayCompleted, verification := if e.EApprove? then Approved else p.verification);
      ConfirmGrows(s, e.id, paid, s.wallets, e.qrStored, i);
      assert SetPayment(s, e.id, PayCompleted, paid.verification)
          == Put(s, e.id, s.bookings[e.id].(payment := Some(paid))).(wallets := s.wallets);
    }
  }

  lemma WalletPayGrows(s: State, u: UserId, id: BookingId, now: int, qr: bool, i: BookingId)
    requires i < |s.bookings| && PayWithWallet(s, u, id, now, qr).Ok?
    ensures RowGrows(s, PayWithWallet(s, u, id, now, qr).value, i, false)
  {
    hide ConfirmBooking;
    var debit := DebitWallet(s.wallets, u, s.bookings[id].deposit as real, BookingPayment);
    if debit.Ok? {
      ConfirmGrows(s, id, Payment(WalletBalance, PayCompleted, Unverified, false), debit.value, qr, i);
    }
  }

  lemma OtherPaymentsGrow(s: State, e: Event, i: BookingId)
    requires i < |s.bookings| && Handle(s, e).Ok? && (e.EInitiate? || e.EDeposit? || e.EUpload?)
    ensures RowGrows(s, Step(s, e), i, false)
  {
  }

  lemma AdvanceGrows(s: State, t: State, id: BookingId, to: Status, qr: Option<bool>, i: BookingId)
    requires i < |s.bookings| && id < |s.bookings| && IsValidTransition(s.bookings[id].status, to)
    requires t.bookings == s.bookings[id := Advance(s.bookings[id], to).(qrUsed := qr)]
    ensures RowGrows(s, t, i, false)
  {
  }

  lemma StatusesGrow(s: State, e: Event, i: BookingId)
    requires i < |s.bookings| && Handle(s, e).Ok?
    requires e.EMarkPaymentFailed? || e.ECheckIn? || e.EScanQr? || e.ENoShow? || e.EComplete?
    ensures RowGrows(s, Step(s, e), i, false)
  {
    hide CreditWallet, CountNoShow, RowGrows;
    var to := if e.EMarkPaymentFailed? then PaymentFailed else if e.ENoShow? then NoShow
              else if e.EComplete? then Completed else CheckedIn;
    AdvanceGrows(s, Step(s, e), e.id, to, if e.EScanQr? then Some(true) else s.bookings[e.id].qrUsed, i);
  }

  lemma JobsGrow(s: State, e: Event, i: BookingId)
    requires i < |s.bookings| && (e.EExpireUnpaid? || e.EExpireNoShows?)
    ensures RowGrows(s, Step(s, e), i, false)
  {
    if e.EExpireUnpaid? {
      ExpireUnpaidExact(s, e.now);
    } else {
      ExpireNoShowsExact(s, e.now);
    }
  }

  lemma CancelGrows(s: State, u: UserId, id: BookingId, now: int, i: BookingId)
    requires i < |s.bookings| && CancelBooking(s, u, id, now).Ok?
    ensures RowGrows(s, CancelBooking(s, u, id, now).value, i, false)
  {
    CancelResult(s, u, id, now);
    hide CancelBooking, RefundQuote;
  }

  lemma FailureGrows(s: State, id: BookingId, v: Verification, i: BookingId)
    requires i < |s.bookings| && id < |s.bookings| && s.bookings[id].payment.Some?
    ensures var late := i == id && s.bookings[id].status != PendingPayment;
      RowGrows(s, FailBooking(SetPayment(s, id, PayFailed, v), id), i, late)
  {
  }

  /** A failure writer that reaches a booking which is no longer awaiting payment. */
  predicate Misfires(s: State, e: Event) {
    FailureTarget(s, e).Some? && s.bookings[FailureTarget(s, e).value].status != PendingPayment
  }

  /**
   No event drops history, leaves the state machine or reopens a settled payment, except that a failure
   writer which misfires records its own row.
   */
  lemma RowsOnlyGrow(s: State, e: Event, i: BookingId)
    requires i < |s.bookings|
    ensures RowGrows(s, Step(s, e), i, Misfires(s, e) && i == FailureTarget(s, e).value)
  {
    hide RowGrows, ConfirmBooking, CancelBooking, PayWithWallet;
    if Handle(s, e).Err? {
      NothingGrows(s, s, i);
      SomeLate(s, s, i, Misfires(s, e) && i == FailureTarget(s, e).value);
    } else if FailureTarget(s, e).Some? {
      var v := FailureStep(s, e);
      FailureGrows(s, FailureTarget(s, e).value, v, i);
    } else if e.EInitiate? || e.EDeposit? || e.EUpload? {
      OtherPaymentsGrow(s, e, i);
    } else if e.EWebhook? || e.EApprove? {
      NoticeGrows(s, e, i);
    } else if e.EWalletPay? {
      WalletPayGrows(s, e.user, e.id, e.now, e.qrStored, i);
    } else if e.EMarkPaymentFailed? || e.ECheckIn? || e.EScanQr? || e.ENoShow? || e.EComplete? {
      StatusesGrow(s, e, i);
    } else if e.EExpireUnpaid? || e.EExpireNoShows? {
      JobsGrow(s, e, i);
    } else if e.ECancel? {
      CancelGrows(s, e.user, e.id, e.now, i);
    } else {
      NothingGrows(s, Step(s, e), i);
    }
  }

  lemma NothingGrows(s: State, t: State, i: BookingId)
    requires i < |s.bookings| && s.bookings <= t.bookings
    ensures RowGrows(s, t, i, false)
  {
  }

  lemma SomeLate(s: State, t: State, i: BookingId, late: bool)
    requires i < |s.bookings| && RowGrows(s, t, i, false)
    ensures RowGrows(s, t, i, late)
  {
  }

  /** The only new rows are those of new bookings. */
  ghost predicate RowsAreKnown(s: State, t: State) {
    forall i :: |s.bookings| <= i < |t.bookings| ==>
      t.bookings[i].history == [Change(None, PendingPayment)] && t.bookings[i].status == PendingPayment
  }

  lemma PaymentsAddNoRows(s: State, e: Event)
    requires Handle(s, e).Ok?
    requires e.EInitiate? || e.EDeposit? || e.EUpload? || e.EWebhook? || e.EApprove? || e.EReject? || e.EExpirePayment? || e.EWalletPay?
    ensures |Step(s, e).bookings| == |s.bookings|
  {
    if FailureTarget(s, e).Some? {
      var v := FailureStep(s, e);
    } else if e.EWalletPay? {
      hide PayWithWallet;
      WalletPayUntouched(s, e.user, e.id, e.now, e.qrStored);
    } else if e.EInitiate? || e.EDeposit? || e.EUpload? {
      NewPaymentUntouched(s, e);
    } else {
      NoticeUntouched(s, e);
    }
  }

  lemma StatusesAddNoRows(s: State, e: Event)
    requires Handle(s, e).Ok?
    requires e.EMarkPaymentFailed? || e.ECancel? || e.ECheckIn? || e.EScanQr? || e.ENoShow? || e.EComplete?
    ensures |Step(s, e).bookings| == |s.bookings|
  {
    if e.ECancel? {
      CancelResult(s, e.user, e.id, e.now);
      hide CancelBooking, RefundQuote;
    } else if !e.EMarkPaymentFailed? {
      StatusUntouched(s, e);
    }
  }

  lemma NoOtherRows(s: State, e: Event)
    ensures RowsAreKnown(s, Step(s, e))
  {
    hide RefundQuote, PriceBooking, CreditWallet, DebitWallet, CreditAccount, DebitAccount;
    hide ConfirmBooking, CancelBooking, PayWithWallet, UpdateStatus, MarkPaymentFailed, MarkNoShow, FailBooking;
    if Handle(s, e).Err? {
      assert Step(s, e) == s;
    } else if e.EExpireUnpaid? {
      ExpireUnpaidExact(s, e.now);
    } else if e.EExpireNoShows? {
      ExpireNoShowsExact(s, e.now);
    } else if e.EMarkPaymentFailed? || e.ECancel? || e.ECheckIn? || e.EScanQr? || e.ENoShow? || e.EComplete? {
      StatusesAddNoRows(s, e);
    } else if !e.ECreate? && !e.EPlatformWithdraw? && !e.EMoveWallet? && !e.ESettings? && !e.EAddSlot? && !e.EUpdateSlot?
              && !e.ERemoveSlot? {
      PaymentsAddNoRows(s, e);
    }
  }

  lemma RankOnlyFalls(a: Booking, b: Booking, late: bool)
    requires RowMoves(a, b, late)
    ensures a.history <= b.history && Rank(b.status) <= Rank(a.status)
    ensures b.status == PendingPayment ==> a.status == PendingPayment
  {
    if IsValidTransition(a.status, b.status) {
      TransitionLowersRank(a.status, b.status);
    }
  }

  // ---------- histories as paths ----------

  lemma RowMovesPath(a: Booking, b: Booking)
    requires RowMoves(a, b, false) && IsPath(a.history, a.status)
    ensures IsPath(b.history, b.status)
  {
    if b.history != a.history {
      ChangeKeepsPath(a.history, a.status, a.status, b.status);
    }
  }

  lemma OrderlyStepKeepsPaths(s: State, e: Event)
    requires PathsOk(s) && !Misfires(s, e)
    ensures PathsOk(Step(s, e))
  {
    hide IsPath, RowMoves, Step, Misfires;
    var t := Step(s, e);
    NoOtherRows(s, e);
    forall i | 0 <= i < |t.bookings|
      ensures IsPath(t.bookings[i].history, t.bookings[i].status)
    {
      if i < |s.bookings| {
        RowsOnlyGrow(s, e, i);
        RowMovesPath(s.bookings[i], t.bookings[i]);
      } else {
        NewPath();
      }
    }
  }

  lemma NewPath()
    ensures IsPath([Change(None, PendingPayment)], PendingPayment)
  {
    assert Continues([Change(None, PendingPayment)], 0);
  }

  lemma MisfireBreaksPath(s: State, e: Event)
    requires PathsOk(s) && Misfires(s, e)
    ensures !PathsOk(Step(s, e))
  {
    var id := FailureTarget(s, e).value;
    var v := FailureStep(s, e);
    var b := s.bookings[id];
    ChangeKeepsPath(b.history, b.status, PendingPayment, PaymentFailed);
    assert Step(s, e).bookings[id].history == b.history + [LATE_FAILURE];
  }

  /** One step keeps every history a path of the state machine if and only if it is no misfiring failure writer. */
  lemma StepKeepsPathsIff(s: State, e: Event)
    requires PathsOk(s)
    ensures PathsOk(Step(s, e)) <==> !Misfires(s, e)
  {
    if Misfires(s, e) {
      MisfireBreaksPath(s, e);
    } else {
      OrderlyStepKeepsPaths(s, e);
    }
  }

  ghost predicate PathsAlong(s: State, es: seq<Event>)
    decreases |es|
  {
    PathsOk(s) && (es == [] || PathsAlong(Step(s, es[0]), es[1..]))
  }

  ghost predicate NoMisfire(s: State, es: seq<Event>)
    decreases |es|
  {
    es == [] || (!Misfires(s, es[0]) && NoMisfire(Step(s, es[0]), es[1..]))
  }

  lemma {:induction false} RunKeepsPathsIff(s: State, es: seq<Event>)
    requires PathsOk(s)
    ensures PathsAlong(s, es) <==> NoMisfire(s, es)
    ensures NoMisfire(s, es) ==> PathsOk(Run(s, es))
    decreases |es|
  {
    if es != [] {
      StepKeepsPathsIff(s, es[0]);
      if !Misfires(s, es[0]) {
        RunKeepsPathsIff(Step(s, es[0]), es[1..]);
      }
    }
  }
}
