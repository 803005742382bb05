/**
 The service methods as they run: row updates one after the other on the tables of one database,
 with a rollback where the service throws. Each is proved to do what BookingModel says it does.
 */
module BookingService {
  import opened Wrappers
  import opened Money
  import opened Ledger
  import opened BookingStatus
  import opened Policy
  import M = BookingModel

  /** A method that returns `r` turned `before` into `after` as the model's `out` prescribes. */
  predicate Carried(before: M.State, out: Result<M.State>, after: M.State, r: Result<()>) {
    match out
    case Ok(t) => r == Ok(()) && after == t
    case Err(e) => r == Err(e) && after == before
  }

  class Database {
    var users: map<M.UserId, M.User>
    var fields: map<M.FieldId, M.Field>
    var slots: map<M.SlotId, M.Slot>
    var bookings: seq<M.Booking>
    var wallets: map<M.UserId, Account>
    var platform: Account
    var settings: Settings

    constructor (users: map<M.UserId, M.User>, fields: map<M.FieldId, M.Field>, slots: map<M.SlotId, M.Slot>,
                 wallets: map<M.UserId, Account>, settings: Settings)
      ensures Tables() == M.State(users, fields, slots, [], wallets, EMPTY_ACCOUNT, settings)
    {
      this.users, this.fields, this.slots, this.bookings := users, fields, slots, [];
      this.wallets, this.platform, this.settings := wallets, EMPTY_ACCOUNT, settings;
    }

    /** The contents of all tables; a transaction keeps one to roll back to. */
    function Tables(): M.State
      reads this
    {
      M.State(users, fields, slots, bookings, wallets, platform, settings)
    }

    method Rollback(saved: M.State)
      modifies this
      ensures Tables() == saved
    {
      users, fields, slots, bookings := saved.users, saved.fields, saved.slots, saved.bookings;
      wallets, platform, settings := saved.wallets, saved.platform, saved.settings;
    }

    // ---------- wallets ----------

    method CreditWallet(user: M.UserId, amount: real, kind: Kind) returns (r: Result<()>)
      modifies this`wallets
      ensures match M.CreditWallet(old(wallets), user, amount, kind)
              case Ok(ws) => r == Ok(()) && wallets == ws
              case Err(e) => r == Err(e) && wallets == old(wallets)
    {
      if amount <= 0.0 {
        return Err(AmountNotPositive);
      }
      if user !in wallets {
        return Err(NotFound);
      }
      var wallet := wallets[user];
      var balanceAfter := HalfAway(wallet.balance as real + amount);
      var row := Row(kind, Credit, HalfAway(amount), wallet.balance, balanceAfter);
      wallets := wallets[user := Account(balanceAfter, wallet.rows + [row])];
      return Ok(());
    }

    method DebitWallet(user: M.UserId, amount: real, kind: Kind) returns (r: Result<()>)
      modifies this`wallets
      ensures match M.DebitWallet(old(wallets), user, amount, kind)
              case Ok(ws) => r == Ok(()) && wallets == ws
              case Err(e) => r == Err(e) && wallets == old(wallets)
    {
      if amount <= 0.0 {
        return Err(AmountNotPositive);
      }
      if user !in wallets {
        return Err(NotFound);
      }
      var wallet := wallets[user];
      var balanceAfter := HalfAway(wallet.balance as real - amount);
      if balanceAfter < 0 {
        return Err(InsufficientBalance);
      }
      var row := Row(kind, Debit, HalfAway(amount), wallet.balance, balanceAfter);
      wallets := wallets[user := Account(balanceAfter, wallet.rows + [row])];
      return Ok(());
    }

    method CreditPlatform(amount: real, kind: Kind) returns (r: Result<()>)
      modifies this`platform
      ensures match CreditAccount(old(platform), amount, kind)
              case Ok(a) => r == Ok(()) && platform == a
              case Err(e) => r == Err(e) && platform == old(platform)
    {
      if amount <= 0.0 {
        return Err(AmountNotPositive);
      }
      var before := platform.balance;
      var after := HalfAway(before as real + amount);
      platform := Account(after, platform.rows + [Row(kind, Credit, HalfAway(amount), before, after)]);
      return Ok(());
    }

    method DebitPlatform(amount: real, kind: Kind) returns (r: Result<()>)
      modifies this`platform
      ensures match DebitAccount(old(platform), amount, kind)
              case Ok(a) => r == Ok(()) && platform == a
              case Err(e) => r == Err(e) && platform == old(platform)
    {
      if amount <= 0.0 {
        return Err(AmountNotPositive);
      }
      var before := platform.balance;
      var after := HalfAway(before as real - amount);
      if after < 0 {
        return Err(InsufficientBalance);
      }
      platform := Account(after, platform.rows + [Row(kind, Debit, HalfAway(amount), before, after)]);
      return Ok(());
    }

    // ---------- bookings ----------

    method SetSlot(x: M.SlotId, status: M.SlotStatus)
      modifies this`slots
      ensures slots == M.SetSlot(old(Tables()), x, status).slots
    {
      if x in slots {
        slots := slots[x := slots[x].(status := status)];
      }
    }

    method CreateBooking(user: M.UserId, x: M.SlotId, now: int, timeAsText: bool) returns (r: Result<()>)
      modifies this
      ensures Carried(old(Tables()), M.CreateBooking(old(Tables()), user, x, now, timeAsText), Tables(), r)
    {
      if user !in users || !users[user].verified {
        return Err(BadRequest);
      }
      if users[user].suspendedUntil.Some? && users[user].suspendedUntil.value > now {
        return Err(BadRequest);
      }
      if x !in slots {
        return Err(NotFound);
      }
      var slot := slots[x];
      if slot.status != M.Available {
        return Err(BadRequest);
      }
      if timeAsText && (slot.startsAt <= now || slot.startsAt - now < 30 * M.MINUTE) {
        return Err(BadRequest);
      }
      if slot.field !in fields || fields[slot.field].deleted {
        return Err(NotFound);
      }
      var field := fields[slot.field];
      if field.owner == user {
        return Err(BadRequest);
      }
      var percent := if settings.depositPercent.Some? then settings.depositPercent.value else 100.0;
      if percent > 100.0 || percent < 0.0 {
        return Err(BadRequest);
      }
      var rate := 10.0;
      if field.commissionRate.Some? {
        rate := field.commissionRate.value;
      } else if settings.globalRate.Some? {
        rate := settings.globalRate.value;
      }
      if percent < rate {
        return Err(BadRequest);
      }
      var deposit := HalfAway(Share(slot.price, percent));
      var commission := HalfAway(Share(slot.price, rate));
      var ownerRevenue := deposit - commission;
      if ownerRevenue < 0 {
        ownerRevenue := 0;
      }
      bookings := bookings + [M.Booking(user, field.owner, x, PendingPayment, [Change(None, PendingPayment)],
                                        slot.price, deposit, commission, ownerRevenue,
                                        now + 15 * M.MINUTE, slot.startsAt, slot.endsAt, 0, 0.0, None, None)];
      SetSlot(x, M.Booked);
      return Ok(());
    }

    method ConfirmBooking(id: M.BookingId, qrStored: bool) returns (r: Result<()>)
      modifies this
      ensures Carried(old(Tables()), M.ConfirmBooking(old(Tables()), id, qrStored), Tables(), r)
    {
      if id >= |bookings| {
        return Err(NotFound);
      }
      var booking := bookings[id];
      if booking.status != PendingPayment {
        return Err(BadRequest);
      }
      var saved := Tables();
      bookings := bookings[id := booking.(status := Confirmed,
                                          history := booking.history + [Change(Some(PendingPayment), Confirmed)])];
      r := CreditPlatform(booking.deposit as real, BookingDeposit);
      if r.Err? {
        Rollback(saved);
        return;
      }
      var ownerShare := booking.deposit - booking.commission;
      if ownerShare > 0 {
        r := CreditWallet(booking.owner, ownerShare as real, BookingPayment);
        if r.Err? {
          Rollback(saved);
          return;
        }
      }
      bookings := bookings[id := bookings[id].(qrUsed := if qrStored then Some(false) else None)];
    }

    /** Writes PAYMENT_FAILED and frees the slot without looking at the booking's status. */
    method HandlePaymentFailure(id: M.BookingId) returns (r: Result<()>)
      modifies this`bookings, this`slots
      ensures id < |old(bookings)| ==> r == Ok(()) && Tables() == M.FailBooking(old(Tables()), id)
      ensures id >= |old(bookings)| ==> r == Err(NotFound) && Tables() == old(Tables())
    {
      if id >= |bookings| {
        return Err(NotFound);
      }
      var booking := bookings[id];
      bookings := bookings[id := booking.(status := PaymentFailed)];
      bookings := bookings[id := bookings[id].(history := booking.history + [Change(Some(PendingPayment), PaymentFailed)])];
      SetSlot(booking.slot, M.Available);
      return Ok(());
    }

    method ProcessWebhookResult(id: M.BookingId, notification: M.Notification, qrStored: bool) returns (r: Result<()>)
      modifies this
      ensures Carried(old(Tables()), M.Webhook(old(Tables()), id, notification, qrStored), Tables(), r)
    {
      if id >= |bookings| || bookings[id].payment.None? {
        return Err(NotFound);
      }
      var payment := bookings[id].payment.value;
      if payment.status != M.PayPending {
        return Ok(());
      }
      var saved := Tables();
      match notification {
        case Success =>
          bookings := bookings[id := bookings[id].(payment := Some(payment.(status := M.PayCompleted)))];
          r := ConfirmBooking(id, qrStored);
          if r.Err? {
            Rollback(saved);
          }
        case Failure =>
          bookings := bookings[id := bookings[id].(payment := Some(payment.(status := M.PayFailed)))];
          r := HandlePaymentFailure(id);
        case StillPending =>
          r := Ok(());
      }
    }

    method ApprovePayment(id: M.BookingId, reviewed: bool, qrStored: bool) returns (r: Result<()>)
      modifies this
      ensures Carried(old(Tables()), M.ApprovePayment(old(Tables()), id, reviewed, qrStored), Tables(), r)
    {
      if id >= |bookings| || bookings[id].payment.None? {
        return Err(NotFound);
      }
      var payment := bookings[id].payment.value;
      if (payment.verification != M.Unverified && payment.verification != M.Locked) || !payment.screenshot
         || bookings[id].status != PendingPayment || reviewed {
        return Err(BadRequest);
      }
      var saved := Tables();
      var approved := payment.(status := M.PayCompleted, verification := M.Approved);
      bookings := bookings[id := bookings[id].(payment := Some(approved))];
      r := ConfirmBooking(id, qrStored);
      if r.Err? {
        Rollback(saved);
      }
    }

    method RejectPayment(id: M.BookingId) returns (r: Result<()>)
      modifies this
      ensures Carried(old(Tables()), M.RejectPayment(old(Tables()), id), Tables(), r)
    {
      if id >= |bookings| || bookings[id].payment.None? {
        return Err(NotFound);
      }
      var payment := bookings[id].payment.value;
      if payment.verification == M.Rejected || payment.verification == M.Approved {
        return Err(BadRequest);
      }
      var rejected := payment.(status := M.PayFailed, verification := M.Rejected);
      bookings := bookings[id := bookings[id].(payment := Some(rejected))];
      r := HandlePaymentFailure(id);
    }

    method ExpirePayment(id: M.BookingId) returns (r: Result<()>)
      modifies this
      ensures Carried(old(Tables()), M.ExpirePayment(old(Tables()), id), Tables(), r)
    {
      if id >= |bookings| || bookings[id].payment.None? {
        return Err(NotFound);
      }
      var expired := bookings[id].payment.value.(status := M.PayFailed, verification := M.Expired);
      bookings := bookings[id := bookings[id].(payment := Some(expired))];
      r := HandlePaymentFailure(id);
    }

    method CheckPayable(user: M.UserId, id: M.BookingId, now: int) returns (r: Result<bool>)
      ensures r == M.PaymentGate(Tables(), user, id, now)
    {
      if user !in users || !users[user].verified {
        return Err(BadRequest);
      }
      if id >= |bookings| {
        return Err(NotFound);
      }
      var booking := bookings[id];
      if booking.player != user {
        return Err(Forbidden);
      }
      if booking.payment.Some? && (booking.payment.value.status == M.PayCompleted || booking.payment.value.status == M.PayPending) {
        return Ok(false);
      }
      if booking.status != PendingPayment || now > booking.deadline {
        return Err(BadRequest);
      }
      if booking.payment.Some? {
        return Err(Conflict);
      }
      return Ok(true);
    }

    /** A gateway's refusal is recorded and then reported as an error. */
    method InitiatePayment(user: M.UserId, id: M.BookingId, gateway: M.Gateway, accepted: bool, now: int)
      returns (r: Result<()>)
      modifies this`bookings
      ensures match M.InitiatePayment(old(Tables()), user, id, gateway, accepted, now)
              case Ok(t) => Tables() == t && r == if M.WasDeclined(old(Tables()), t, id) then Err(BadRequest) else Ok(())
              case Err(e) => Tables() == old(Tables()) && r == Err(e)
    {
      if gateway == M.WalletBalance {
        return Err(BadRequest);
      }
      var gate := CheckPayable(user, id, now);
      if gate.Err? {
        return Err(gate.error);
      }
      if !gate.value {
        return Ok(());
      }
      var payment := M.Payment(gateway, M.PayPending, M.Unverified, false);
      if accepted {
        bookings := bookings[id := bookings[id].(payment := Some(payment))];
        return Ok(());
      }
      bookings := bookings[id := bookings[id].(payment := Some(payment.(status := M.PayFailed)))];
      return Err(BadRequest);
    }

    method InitiateDeposit(user: M.UserId, id: M.BookingId, gateway: M.Gateway, cached: bool, now: int)
      returns (r: Result<()>)
      modifies this`bookings
      ensures Carried(old(Tables()), M.InitiateDeposit(old(Tables()), user, id, gateway, cached, now), Tables(), r)
    {
      if gateway == M.WalletBalance || !M.MayPay(Tables(), user, id, now) {
        return Err(BadRequest);
      }
      var payment := M.Payment(gateway, M.PayPending, M.Unverified, false);
      if bookings[id].payment.Some? {
        if bookings[id].payment.value.status == M.PayPending && cached {
          return Ok(());
        }
        payment := bookings[id].payment.value.(gateway := gateway, status := M.PayPending);
      }
      bookings := bookings[id := bookings[id].(payment := Some(payment))];
      return Ok(());
    }

    method UploadScreenshot(user: M.UserId, id: M.BookingId, attemptsLeft: bool) returns (r: Result<()>)
      modifies this`bookings
      ensures Carried(old(Tables()), M.UploadScreenshot(old(Tables()), user, id, attemptsLeft), Tables(), r)
    {
      if id >= |bookings| || bookings[id].payment.None? {
        return Err(NotFound);
      }
      var payment := bookings[id].payment.value;
      if bookings[id].player != user || payment.status != M.PayPending
         || !(payment.gateway == M.VodafoneCash || payment.gateway == M.InstaPay) || !attemptsLeft
         || (payment.screenshot && payment.verification == M.Unverified) || payment.verification == M.Approved {
        return Err(BadRequest);
      }
      payment := payment.(screenshot := true, verification := M.Unverified);
      bookings := bookings[id := bookings[id].(payment := Some(payment))];
      return Ok(());
    }

    /** A refused debit is recorded as a failed payment and reported; only a failing confirmation is rolled back. */
    method PayWithWallet(user: M.UserId, id: M.BookingId, now: int, qrStored: bool) returns (r: Result<()>)
      modifies this
      ensures match M.PayWithWallet(old(Tables()), user, id, now, qrStored)
              case Ok(t) => Tables() == t && r == if M.WasDeclined(old(Tables()), t, id) then Err(BadRequest) else Ok(())
              case Err(e) => Tables() == old(Tables()) && r == Err(e)
    {
      var gate := CheckPayable(user, id, now);
      if gate.Err? {
        return Err(gate.error);
      }
      if !gate.value {
        return Ok(());
      }
      var saved := Tables();
      var booking := bookings[id];
      var payment := M.Payment(M.WalletBalance, M.PayFailed, M.Unverified, false);
      r := DebitWallet(user, booking.deposit as real, BookingPayment);
      if r.Err? {
        bookings := bookings[id := booking.(payment := Some(payment))];
        return Err(BadRequest);
      }
      bookings := bookings[id := booking.(payment := Some(payment.(status := M.PayCompleted)))];
      r := ConfirmBooking(id, qrStored);
      if r.Err? {
        Rollback(saved);
      }
    }

    method UpdateBookingStatus(id: M.BookingId, to: Status) returns (r: Result<()>)
      modifies this`bookings
      ensures Carried(old(Tables()), M.UpdateStatus(old(Tables()), id, to), Tables(), r)
    {
      if id >= |bookings| {
        return Err(NotFound);
      }
      var booking := bookings[id];
      if to !in NextStatuses(booking.status) {
        return Err(BadRequest);
      }
      bookings := bookings[id := booking.(status := to)];
      bookings := bookings[id := bookings[id].(history := booking.history + [Change(Some(booking.status), to)])];
      return Ok(());
    }

    method MarkPaymentFailed(id: M.BookingId) returns (r: Result<()>)
      modifies this
      ensures Carried(old(Tables()), M.MarkPaymentFailed(old(Tables()), id), Tables(), r)
    {
      r := UpdateBookingStatus(id, PaymentFailed);
      if r.Ok? {
        SetSlot(bookings[id].slot, M.Available);
      }
    }

    method CancelBooking(caller: M.UserId, id: M.BookingId, now: int) returns (r: Result<()>)
      modifies this
      ensures Carried(old(Tables()), M.CancelBooking(old(Tables()), caller, id, now), Tables(), r)
    {
      hide M.PayRefund;
      if caller !in users || !users[caller].verified {
        return Err(BadRequest);
      }
      if id >= |bookings| {
        return Err(NotFound);
      }
      var booking := bookings[id];
      if booking.player != caller && booking.owner != caller {
        return Err(Forbidden);
      }
      if booking.status != PendingPayment && booking.status != Confirmed {
        return Err(BadRequest);
      }
      var quote := PlayerRefund(booking.deposit, booking.startsAt - now, settings.refunds);
      if booking.owner == caller {
        quote := OwnerRefund(booking.deposit);
      }
      var saved := Tables();
      var newStatus := if quote.refund > 0 then CancelledRefunded else CancelledNoRefund;
      bookings := bookings[id := booking.(status := newStatus, refundAmount := quote.refund, refundPercent := quote.percent)];
      bookings := bookings[id := bookings[id].(history := booking.history + [Change(Some(booking.status), newStatus)])];
      SetSlot(booking.slot, M.Available);
      ghost var cancelled := M.Advance(booking, newStatus).(refundAmount := quote.refund, refundPercent := quote.percent);
      assert bookings == saved.bookings[id := cancelled];
      assert Tables() == M.SetSlot(M.Put(saved, id, cancelled), booking.slot, M.Available);
      r := Ok(());
      if quote.refund > 0 && booking.payment.Some? && booking.payment.value.status == M.PayCompleted {
        r := RefundMoney(booking, quote);
        if r.Err? {
          Rollback(saved);
          return;
        }
        bookings := bookings[id := bookings[id].(payment := Some(booking.payment.value.(status := M.PayRefunded)))];
      }
    }

    /** The refund's three movements; a refused one leaves the earlier ones for the caller to roll back. */
    method RefundMoney(booking: M.Booking, quote: Quote) returns (r: Result<()>)
      modifies this`wallets, this`platform
      ensures match M.PayRefund(old(Tables()), booking, quote)
              case Ok(t) => r == Ok(()) && Tables() == t
              case Err(e) => r == Err(e)
    {
      r := CreditWallet(booking.player, quote.refund as real, Refund);
      if r.Err? {
        return;
      }
      r := DebitPlatform(Share(booking.commission, quote.percent), BookingRefund);
      if r.Err? {
        return;
      }
      var ownerRefund := Share(booking.deposit - booking.commission, quote.percent);
      if ownerRefund > 0.0 {
        r := DebitWallet(booking.owner, ownerRefund, Refund);
      }
    }

    method CheckInBooking(caller: M.UserId, id: M.BookingId, now: int) returns (r: Result<()>)
      modifies this`bookings
      ensures Carried(old(Tables()), M.CheckIn(old(Tables()), caller, id, now), Tables(), r)
    {
      if id >= |bookings| {
        return Err(NotFound);
      }
      if bookings[id].owner != caller {
        return Err(Forbidden);
      }
      if !M.SameDay(bookings[id].startsAt, now) {
        return Err(BadRequest);
      }
      r := UpdateBookingStatus(id, CheckedIn);
    }

    method ValidateQrCode(caller: M.UserId, id: M.BookingId, now: int) returns (r: Result<()>)
      modifies this`bookings
      ensures Carried(old(Tables()), M.ScanQr(old(Tables()), caller, id, now), Tables(), r)
    {
      if id >= |bookings| || bookings[id].qrUsed.None? {
        return Err(NotFound);
      }
      var booking := bookings[id];
      if booking.qrUsed.value || booking.status != Confirmed || !M.SameDay(booking.startsAt, now) {
        return Err(BadRequest);
      }
      if booking.owner != caller {
        return Err(Forbidden);
      }
      bookings := bookings[id := booking.(status := CheckedIn)];
      bookings := bookings[id := bookings[id].(history := booking.history + [Change(Some(Confirmed), CheckedIn)])];
      bookings := bookings[id := bookings[id].(qrUsed := Some(true))];
      return Ok(());
    }

    method MarkNoShow(caller: M.UserId, id: M.BookingId, now: int) returns (r: Result<()>)
      modifies this
      ensures Carried(old(Tables()), M.MarkNoShow(old(Tables()), caller, id, now), Tables(), r)
    {
      if id >= |bookings| {
        return Err(NotFound);
      }
      var booking := bookings[id];
      if booking.owner != caller {
        return Err(Forbidden);
      }
      var saved := Tables();
      r := UpdateBookingStatus(id, NoShow);
      if r.Err? {
        return;
      }
      if booking.player !in users {
        Rollback(saved);
        return Err(NotFound);
      }
      var player := users[booking.player];
      player := player.(noShows := player.noShows + 1);
      if player.noShows >= 3 {
        player := player.(suspendedUntil := Some(now + 30 * M.DAY));
      }
      users := users[booking.player := player];
      if booking.commission > 0 {
        r := CreditWallet(booking.owner, booking.commission as real, Compensation);
        if r.Err? {
          Rollback(saved);
        }
      }
    }

    // ---------- cron jobs ----------

    method ExpireUnpaidBookings(now: int)
      modifies this`bookings, this`slots
      ensures Tables() == M.ExpireUnpaid(old(Tables()), now)
    {
      var expired := M.Select(bookings, M.Overdue(now));
      for k := 0 to |expired|
        invariant Tables() == M.FailEach(old(Tables()), expired[..k])
      {
        assert expired[..k + 1][..|expired[..k + 1]| - 1] == expired[..k];
        var r := HandlePaymentFailure(expired[k]);
      }
      assert expired[..|expired|] == expired;
    }

    method ExpireNoShowBookings(now: int)
      modifies this`bookings
      ensures Tables() == M.ExpireNoShows(old(Tables()), now)
    {
      var passed := M.Select(bookings, M.PastEnd(now));
      for k := 0 to |passed|
        invariant Tables() == M.NoShowEach(old(Tables()), passed[..k])
      {
        assert passed[..k + 1][..|passed[..k + 1]| - 1] == passed[..k];
        var id := passed[k];
        if id < |bookings| {
          var booking := bookings[id];
          bookings := bookings[id := booking.(status := ExpiredNoShow)];
          bookings := bookings[id := bookings[id].(history := booking.history + [Change(Some(Confirmed), ExpiredNoShow)])];
        }
      }
      assert passed[..|passed|] == passed;
    }
  }
}
