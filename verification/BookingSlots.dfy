/** Who holds which slot: every step keeps that right, except a failure writer that robs another booking of its slot. */
module BookingSlots {
  import opened Wrappers
  import opened Ledger
  import opened BookingStatus
  import opened BookingModel
  import opened BookingInvariants
  import opened BookingSteps

  // ---------- taking, keeping and freeing a slot ----------

  /** No slot changes status or is dropped, and every booking keeps its slot and whether it holds it. */
  ghost predicate SlotsUntouched(s: State, t: State) {
    && t.slots == s.slots && |t.bookings| == |s.bookings|
    && (forall i :: 0 <= i < |s.bookings| ==>
          t.bookings[i].slot == s.bookings[i].slot && Active(t.bookings[i]) == Active(s.bookings[i]))
  }

  lemma UntouchedKeeps(s: State, t: State)
    requires SlotsOk(s) && SlotsUntouched(s, t)
    ensures SlotsOk(t)
  {
    hide Active;
    assert forall i, x :: Holds(t.bookings, i, x) <==> Holds(s.bookings, i, x);
  }

  /** Ending a booking that held its slot, and freeing that slot. */
  lemma SlotsAfterRelease(s: State, t: State, id: BookingId, b: Booking)
    requires SlotsOk(s) && id < |s.bookings| && t.bookings == s.bookings[id := b]
    requires t.slots == SetSlot(s, b.slot, Available).slots
    requires b.slot == s.bookings[id].slot && Active(s.bookings[id]) && !Active(b)
    ensures SlotsOk(t)
  {
    assert forall i, x :: Holds(t.bookings, i, x) <==> Holds(s.bookings, i, x) && i != id;
    assert Holds(s.bookings, id, b.slot);
    forall x | x in t.slots
      ensures t.slots[x].status == Booked <==> exists i :: Holds(t.bookings, i, x)
    {
      if x != b.slot && s.slots[x].status == Booked {
        var i :| Holds(s.bookings, i, x);
        assert Holds(t.bookings, i, x);
      }
    }
  }

  lemma SlotsAfterCreate(s: State, t: State, x: SlotId, b: Booking)
    requires SlotsOk(s) && x in s.slots && s.slots[x].status != Booked
    requires t.bookings == s.bookings + [b] && b.slot == x && Active(b)
    requires t.slots == SetSlot(s, x, Booked).slots
    ensures SlotsOk(t)
  {
    var n := |s.bookings|;
    assert forall i, y :: Holds(t.bookings, i, y) <==> Holds(s.bookings, i, y) || (i == n && y == x);
    assert Holds(t.bookings, n, x);
    forall y | y in t.slots
      ensures t.slots[y].status == Booked <==> exists i :: Holds(t.bookings, i, y)
    {
      if y != x && s.slots[y].status == Booked {
        var i :| Holds(s.bookings, i, y);
        assert Holds(t.bookings, i, y);
      }
    }
  }

  /** Some booking other than `id` holds the slot of booking `id`. */
  ghost predicate HeldByAnother(s: State, id: BookingId)
    requires id < |s.bookings|
  {
    !Active(s.bookings[id]) && exists j :: Holds(s.bookings, j, s.bookings[id].slot)
  }

  /** Failing a booking and freeing its slot is right unless the booking is over and another one holds the slot. */
  lemma SlotsAfterFailureIff(s: State, t: State, id: BookingId, b: Booking)
    requires SlotsOk(s) && id < |s.bookings| && t.bookings == s.bookings[id := b]
    requires t.slots == SetSlot(s, b.slot, Available).slots
    requires b.slot == s.bookings[id].slot && !Active(b)
    ensures SlotsOk(t) <==> !HeldByAnother(s, id)
  {
    if Active(s.bookings[id]) {
      SlotsAfterRelease(s, t, id, b);
    } else {
      assert forall i, x :: Holds(t.bookings, i, x) <==> Holds(s.bookings, i, x);
      if j :| Holds(s.bookings, j, b.slot) {
        assert Holds(t.bookings, j, b.slot) && t.slots[b.slot].status == Available;
      }
    }
  }

  // ---------- the steps ----------

  lemma {:induction false} FailEachKeepsSlots(s: State, ids: seq<BookingId>)
    requires SlotsOk(s)
    requires forall k :: 0 <= k < |ids| ==> ids[k] < |s.bookings| && Active(s.bookings[ids[k]])
    requires forall k, l :: 0 <= k < l < |ids| ==> ids[k] < ids[l]
    ensures SlotsOk(FailEach(s, ids))
    decreases |ids|
  {
    if ids != [] {
      var shorter, id := ids[..|ids| - 1], ids[|ids| - 1];
      FailEachKeepsSlots(s, shorter);
      FailEachRows(s, shorter);
      assert id !in shorter;
      var before := FailEach(s, shorter);
      SlotsAfterRelease(before, FailBooking(before, id), id, FailedRow(before.bookings[id]));
    }
  }

  lemma ReleaseKeeps(s: State, e: Event)
    requires SlotsOk(s) && Handle(s, e).Ok? && (e.ECancel? || e.EMarkPaymentFailed? || e.EExpireUnpaid?)
    ensures SlotsOk(Step(s, e))
  {
    match e
    case ECancel(u, id, now) => CancelReleases(s, u, id, now);
    case EMarkPaymentFailed(id) =>
      SlotsAfterRelease(s, Step(s, e), id, Advance(s.bookings[id], PaymentFailed));
    case EExpireUnpaid(now) =>
      SelectExact(s.bookings, Overdue(now));
      FailEachKeepsSlots(s, Select(s.bookings, Overdue(now)));
  }

  lemma CancelReleases(s: State, u: UserId, id: BookingId, now: int)
    requires SlotsOk(s) && CancelBooking(s, u, id, now).Ok?
    ensures SlotsOk(CancelBooking(s, u, id, now).value)
  {
    var b := s.bookings[id];
    var q := RefundQuote(b, u, now, s.settings);
    CancelResult(s, u, id, now);
    hide CancelBooking, RefundQuote;
    SlotsAfterRelease(s, CancelBooking(s, u, id, now).value, id, CancelledRow(b, q, q.refund > 0 && IsPaid(b)));
  }

  lemma SlotTableKeepsSlots(s: State, x: SlotId, slot: Slot)
    requires SlotsOk(s)
    ensures AddSlot(s, x, slot).Ok? ==> SlotsOk(AddSlot(s, x, slot).value)
    ensures UpdateSlot(s, x, slot).Ok? ==> SlotsOk(UpdateSlot(s, x, slot).value)
    ensures RemoveSlot(s, x).Ok? ==> SlotsOk(RemoveSlot(s, x).value)
  {
    hide Active;
    assert forall i, y :: Holds(s.bookings, i, y) ==> y in s.slots && s.slots[y].status == Booked;
  }

  lemma ConfirmUntouched(s: State, id: BookingId, qr: bool)
    requires ConfirmBooking(s, id, qr).Ok?
    ensures SlotsUntouched(s, ConfirmBooking(s, id, qr).value)
  {
  }

  /** Replacing a row by one that holds the same slot in the same way. */
  lemma PutUntouched(s: State, id: BookingId, b: Booking)
    requires id < |s.bookings| && b.slot == s.bookings[id].slot && Active(b) == Active(s.bookings[id])
    ensures SlotsUntouched(s, Put(s, id, b))
  {
  }

  lemma NewPaymentUntouched(s: State, e: Event)
    requires Handle(s, e).Ok? && (e.EInitiate? || e.EDeposit? || e.EUpload?)
    ensures SlotsUntouched(s, Step(s, e))
  {
    hide SlotsUntouched;
    if Step(s, e) == s {
      PutUntouched(s, e.id, s.bookings[e.id]);
      assert Put(s, e.id, s.bookings[e.id]) == s;
    } else {
      PutUntouched(s, e.id, Step(s, e).bookings[e.id]);
    }
  }

  lemma NoticeUntouched(s: State, e: Event)
    requires Handle(s, e).Ok? && FailureTarget(s, e).None?
    requires e.EWebhook? || e.EApprove? || e.EReject? || e.EExpirePayment?
    ensures SlotsUntouched(s, Step(s, e))
  {
    hide ConfirmBooking;
    if e.EApprove? {
      ConfirmUntouched(SetPayment(s, e.id, PayCompleted, Approved), e.id, e.qrStored);
    } else if e.EWebhook? && Step(s, e) != s {
      ConfirmUntouched(SetPayment(s, e.id, PayCompleted, s.bookings[e.id].payment.value.verification), e.id, e.qrStored);
    }
  }

  lemma WalletPayUntouched(s: State, u: UserId, id: BookingId, now: int, qr: bool)
    requires PayWithWallet(s, u, id, now, qr).Ok?
    ensures SlotsUntouched(s, PayWithWallet(s, u, id, now, qr).value)
  {
    hide ConfirmBooking, DebitWallet;
    var paid := Put(s, id, s.bookings[id].(payment := Some(Payment(WalletBalance, PayCompleted, Unverified, false))));
    var debit := DebitWallet(s.wallets, u, s.bookings[id].deposit as real, BookingPayment);
    if PaymentGate(s, u, id, now) == Ok(true) && debit.Ok? {
      ConfirmUntouched(paid.(wallets := debit.value), id, qr);
    }
  }

  lemma AdvanceUntouched(s: State, id: BookingId, to: Status, qr: Option<bool>)
    requires id < |s.bookings| && IsValidTransition(s.bookings[id].status, to) && to in {CheckedIn, Completed, NoShow}
    ensures SlotsUntouched(s, Put(s, id, Advance(s.bookings[id], to).(qrUsed := qr)))
  {
    PutUntouched(s, id, Advance(s.bookings[id], to).(qrUsed := qr));
  }

  lemma StatusUntouched(s: State, e: Event)
    requires Handle(s, e).Ok?
    requires e.EExpireNoShows? || e.ECheckIn? || e.EScanQr? || e.ENoShow? || e.EComplete?
    ensures SlotsUntouched(s, Step(s, e))
  {
    hide CreditWallet, CountNoShow;
    match e
    case EExpireNoShows(now) => ExpireNoShowsExact(s, now);
    case ECheckIn(u, id, now) => AdvanceUntouched(s, id, CheckedIn, s.bookings[id].qrUsed);
    case EScanQr(u, id, now) => AdvanceUntouched(s, id, CheckedIn, Some(true));
    case ENoShow(u, id, now) => AdvanceUntouched(s, id, NoShow, s.bookings[id].qrUsed);
    case EComplete(id) => AdvanceUntouched(s, id, Completed, s.bookings[id].qrUsed);
  }

  lemma MoneyUntouched(s: State, e: Event)
    requires Handle(s, e).Ok? && (e.EPlatformWithdraw? || e.EMoveWallet? || e.ESettings?)
    ensures SlotsUntouched(s, Step(s, e))
  {
  }

  // ---------- any step, any run ----------

  /** A failure writer frees the slot of a booking that is over and that another booking holds by now. */
  ghost predicate Robs(s: State, e: Event) {
    FailureTarget(s, e).Some? && HeldByAnother(s, FailureTarget(s, e).value)
  }

  /** One step keeps every slot with its one holder if and only if it robs none. */
  lemma StepKeepsSlotsIff(s: State, e: Event)
    requires SlotsOk(s)
    ensures SlotsOk(Step(s, e)) <==> !Robs(s, e)
  {
    hide SlotsOk, SlotsUntouched, HeldByAnother, ConfirmBooking, CancelBooking, PayWithWallet, MarkNoShow, AddSlot, UpdateSlot, RemoveSlot;
    if Handle(s, e).Err? {
      assert Step(s, e) == s;
      OnlyHandledFail(s, e);
    } else if FailureTarget(s, e).Some? {
      var v := FailureStep(s, e);
      FailureKeepsIff(s, FailureTarget(s, e).value, v);
    } else if e.ECreate? {
      CreateKeepsSlots(s, e);
    } else if e.ECancel? || e.EMarkPaymentFailed? || e.EExpireUnpaid? {
      ReleaseKeeps(s, e);
    } else if e.EAddSlot? || e.EUpdateSlot? {
      SlotTableKeepsSlots(s, e.slot, e.row);
    } else if e.ERemoveSlot? {
      SlotTableKeepsSlots(s, e.slot, Slot(0, 0, 0, 0, Available));
    } else {
      if e.EPlatformWithdraw? || e.EMoveWallet? || e.ESettings? {
        MoneyUntouched(s, e);
      } else if e.EExpireNoShows? || e.ECheckIn? || e.EScanQr? || e.ENoShow? || e.EComplete? {
        StatusUntouched(s, e);
      } else if e.EInitiate? || e.EDeposit? || e.EUpload? {
        NewPaymentUntouched(s, e);
      } else if e.EWalletPay? {
        WalletPayUntouched(s, e.user, e.id, e.now, e.qrStored);
      } else {
        NoticeUntouched(s, e);
      }
      UntouchedKeeps(s, Step(s, e));
    }
  }

  lemma OnlyHandledFail(s: State, e: Event)
    requires Handle(s, e).Err?
    ensures FailureTarget(s, e).None?
  {
  }

  lemma FailureKeepsIff(s: State, id: BookingId, v: Verification)
    requires SlotsOk(s) && id < |s.bookings| && s.bookings[id].payment.Some?
    ensures SlotsOk(FailBooking(SetPayment(s, id, PayFailed, v), id)) <==> !HeldByAnother(s, id)
  {
    var t := FailBooking(SetPayment(s, id, PayFailed, v), id);
    SlotsAfterFailureIff(s, t, id, t.bookings[id]);
  }

  lemma CreateKeepsSlots(s: State, e: Event)
    requires SlotsOk(s) && e.ECreate? && Handle(s, e).Ok?
    ensures SlotsOk(Step(s, e))
  {
    var t := Step(s, e);
    SlotsAfterCreate(s, t, e.slot, t.bookings[|s.bookings|]);
  }

  ghost predicate SlotsAlong(s: State, es: seq<Event>)
    decreases |es|
  {
    SlotsOk(s) && (es == [] || SlotsAlong(Step(s, es[0]), es[1..]))
  }

  ghost predicate NoRobbery(s: State, es: seq<Event>)
    decreases |es|
  {
    es == [] || (!Robs(s, es[0]) && NoRobbery(Step(s, es[0]), es[1..]))
  }

  /** Every state of a run has its slots right if and only if no event of the run robs a booking. */
  lemma {:induction false} RunKeepsSlotsIff(s: State, es: seq<Event>)
    requires SlotsOk(s)
    ensures SlotsAlong(s, es) <==> NoRobbery(s, es)
    ensures NoRobbery(s, es) ==> SlotsOk(Run(s, es))
    decreases |es|
  {
    if es != [] {
      StepKeepsSlotsIff(s, es[0]);
      if !Robs(s, es[0]) {
        RunKeepsSlotsIff(Step(s, es[0]), es[1..]);
      }
    }
  }
}
