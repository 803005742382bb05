/**
 The booking tables and what each service method does to them, as functions on table contents.
 The class Database in BookingService.dfy carries the same methods out step by step.
 Every method is one all-or-nothing step: `Err` leaves the tables as they were.
 */
module BookingModel {
  import opened Wrappers
  import opened Money
  import opened Ledger
  import opened BookingStatus
  import opened Policy

  type UserId = nat
  type FieldId = nat
  type SlotId = nat
  /** Booking rows are never deleted, so a booking's id is its position in the table. */
  type BookingId = nat

  datatype SlotStatus = Available | Booked | Blocked
  datatype PaymentStatus = PayPending | PayCompleted | PayFailed | PayRefunded
  /** LOCKED is read by two methods, but no method writes it. */
  datatype Verification = Unverified | Locked | Approved | Rejected | Expired
  datatype Gateway = Stripe | Fawry | VodafoneCash | InstaPay | Paymob | WalletBalance
  datatype Notification = Success | Failure | StillPending

  datatype User = User(verified: bool, suspendedUntil: Option<int>, noShows: nat)
  datatype Field = Field(owner: UserId, commissionRate: Option<real>, deleted: bool)
  /** Times are milliseconds since the epoch, UTC. */
  datatype Slot = Slot(field: FieldId, startsAt: int, endsAt: int, price: int, status: SlotStatus)
  datatype Payment = Payment(gateway: Gateway, status: PaymentStatus, verification: Verification, screenshot: bool)

  /**
   A Booking row together with the rows that belong to it alone: its Payment, its QrCode (whether it
   has been used) and its BookingStatusHistory. `owner` is field.ownerId, which every method reads
   through the relation. `refundPercent` is what the cancellation wrote into its history reason.
   */
  datatype Booking = Booking(
    player: UserId, owner: UserId, slot: SlotId,
    status: Status, history: seq<Change>,
    total: int, deposit: int, commission: int, ownerRevenue: int,
    deadline: int, startsAt: int, endsAt: int,
    refundAmount: int, refundPercent: real,
    payment: Option<Payment>, qrUsed: Option<bool>)

  datatype State = State(
    users: map<UserId, User>, fields: map<FieldId, Field>, slots: map<SlotId, Slot>,
    bookings: seq<Booking>, wallets: map<UserId, Account>, platform: Account, settings: Settings)

  const MINUTE := 60_000
  const DAY := 24 * 60 * MINUTE

  // ---------- row updates ----------

  function Put(s: State, id: BookingId, b: Booking): State
    requires id < |s.bookings|
  {
    s.(bookings := s.bookings[id := b])
  }

  function SetSlot(s: State, x: SlotId, status: SlotStatus): State {
    if x in s.slots then s.(slots := s.slots[x := s.slots[x].(status := status)]) else s
  }

  function Advance(b: Booking, to: Status): Booking {
    b.(status := to, history := b.history + [Change(Some(b.status), to)])
  }

  function CreditWallet(ws: map<UserId, Account>, u: UserId, amount: real, kind: Kind): Result<map<UserId, Account>> {
    if amount <= 0.0 then Err(AmountNotPositive)
    else if u !in ws then Err(NotFound)
    else Ok(ws[u := CreditAccount(ws[u], amount, kind).value])
  }

  function DebitWallet(ws: map<UserId, Account>, u: UserId, amount: real, kind: Kind): Result<map<UserId, Account>> {
    if amount <= 0.0 then Err(AmountNotPositive)
    else if u !in ws then Err(NotFound)
    else
      var out := DebitAccount(ws[u], amount, kind);
      if out.Ok? then Ok(ws[u := out.value]) else Err(out.error)
  }

  // ---------- creation ----------

  predicate IsSuspended(u: User, now: int) {
    u.suspendedUntil.Some? && u.suspendedUntil.value > now
  }

  function NewBooking(user: UserId, owner: UserId, x: SlotId, slot: Slot, p: Price, now: int): Booking {
    Booking(user, owner, x, PendingPayment, [Change(None, PendingPayment)],
            slot.price, p.deposit, p.commission, p.ownerRevenue,
            now + 15 * MINUTE, slot.startsAt, slot.endsAt, 0, 0.0, None, None)
  }

  /**
   `timeAsText` says whether the slot's start time prints as hh:mm:ss. The declared type is Date, which
   does not: the parsed hours are NaN then, no comparison with them holds and no lead time is demanded.
   */
  function CreateBooking(s: State, user: UserId, x: SlotId, now: int, timeAsText: bool): Result<State> {
    if user !in s.users || !s.users[user].verified || IsSuspended(s.users[user], now) then Err(BadRequest)
    else if x !in s.slots then Err(NotFound)
    else if s.slots[x].status != Available then Err(BadRequest)
    else if timeAsText && s.slots[x].startsAt - now < 30 * MINUTE then Err(BadRequest)
    else if s.slots[x].field !in s.fields || s.fields[s.slots[x].field].deleted then Err(NotFound)
    else if s.fields[s.slots[x].field].owner == user then Err(BadRequest)
    else
      var slot := s.slots[x];
      var field := s.fields[slot.field];
      var price := PriceBooking(slot.price, field.commissionRate, s.settings);
      if price.Err? then Err(price.error)
      else
        var b := NewBooking(user, field.owner, x, slot, price.value, now);
        Ok(SetSlot(s.(bookings := s.bookings + [b]), x, Booked))
  }

  // ---------- payment ----------

  predicate MayPay(s: State, user: UserId, id: BookingId, now: int) {
    && id < |s.bookings|
    && s.bookings[id].player == user
    && s.bookings[id].status == PendingPayment
    && now <= s.bookings[id].deadline
  }

  /** What POST /payments/initiate checks first: `false` means that the existing payment is the answer. */
  function PaymentGate(s: State, user: UserId, id: BookingId, now: int): Result<bool> {
    if user !in s.users || !s.users[user].verified then Err(BadRequest)
    else if id >= |s.bookings| then Err(NotFound)
    else if s.bookings[id].player != user then Err(Forbidden)
    else
      var p := s.bookings[id].payment;
      if p.Some? && (p.value.status == PayCompleted || p.value.status == PayPending) then Ok(false)
      else if !MayPay(s, user, id, now) then Err(BadRequest)
      else if p.Some? then Err(Conflict)
      else Ok(true)
  }

  /** POST /payments/initiate through an external gateway that answers PENDING or FAILED. */
  function InitiatePayment(s: State, user: UserId, id: BookingId, g: Gateway, accepted: bool, now: int): Result<State> {
    if g == WalletBalance then Err(BadRequest)
    else
      var gate := PaymentGate(s, user, id, now);
      if gate.Err? then Err(gate.error)
      else if !gate.value then Ok(s)
      else
        var p := Payment(g, if accepted then PayPending else PayFailed, Unverified, false);
        Ok(Put(s, id, s.bookings[id].(payment := Some(p))))
  }

  /** The payment was recorded as failed just now: the tables keep that, and the caller gets an error. */
  predicate WasDeclined(before: State, after: State, id: BookingId) {
    && id < |before.bookings| && before.bookings[id].payment.None?
    && id < |after.bookings| && after.bookings[id].payment.Some? && after.bookings[id].payment.value.status == PayFailed
  }

  /**
   POST /payments/deposit/init: creates the payment, or points the existing one at a new attempt.
   `cached` says whether the stored gateway response has a redirect URL; a pending payment stays then.
   */
  function InitiateDeposit(s: State, user: UserId, id: BookingId, g: Gateway, cached: bool, now: int): Result<State> {
    if g == WalletBalance || !MayPay(s, user, id, now) then Err(BadRequest)
    else
      var b := s.bookings[id];
      if b.payment.Some? && b.payment.value.status == PayPending && cached then Ok(s)
      else
        var p := if b.payment.Some? then b.payment.value.(gateway := g, status := PayPending)
                 else Payment(g, PayPending, Unverified, false);
        Ok(Put(s, id, b.(payment := Some(p))))
  }

  /** `attemptsLeft` says whether the payment has upload attempts left. */
  function UploadScreenshot(s: State, user: UserId, id: BookingId, attemptsLeft: bool): Result<State> {
    if id >= |s.bookings| || s.bookings[id].payment.None? then Err(NotFound)
    else
      var b := s.bookings[id];
      var p := b.payment.value;
      if b.player != user || p.status != PayPending then Err(BadRequest)
      else if (p.gateway != VodafoneCash && p.gateway != InstaPay) || !attemptsLeft then Err(BadRequest)
      else if (p.screenshot && p.verification == Unverified) || p.verification == Approved then Err(BadRequest)
      else Ok(Put(s, id, b.(payment := Some(p.(screenshot := true, verification := Unverified)))))
  }

  /** booking-confirmation's confirmBooking: the platform gets the deposit, the owner the deposit less the commission. */
  function ConfirmBooking(s: State, id: BookingId, qrStored: bool): Result<State> {
    if id >= |s.bookings| then Err(NotFound)
    else if s.bookings[id].status != PendingPayment then Err(BadRequest)
    else
      var b := s.bookings[id];
      var platform := CreditAccount(s.platform, b.deposit as real, BookingDeposit);
      if platform.Err? then Err(platform.error)
      else
        var share := b.deposit - b.commission;
        var wallets := if share > 0 then CreditWallet(s.wallets, b.owner, share as real, BookingPayment)
                       else Ok(s.wallets);
        if wallets.Err? then Err(wallets.error)
        else
          var confirmed := Advance(b, Confirmed).(qrUsed := if qrStored then Some(false) else None);
          Ok(Put(s, id, confirmed).(platform := platform.value, wallets := wallets.value))
  }

  /**
   The update shared by handlePaymentFailure, rejectPayment and expirePayment: the booking becomes
   PAYMENT_FAILED and its slot AVAILABLE whatever the booking's status was, and the history row
   names PENDING_PAYMENT as the origin.
   */
  function FailBooking(s: State, id: BookingId): State
    requires id < |s.bookings|
  {
    SetSlot(Put(s, id, FailedRow(s.bookings[id])), s.bookings[id].slot, Available)
  }

  function FailedRow(b: Booking): Booking {
    b.(status := PaymentFailed, history := b.history + [LATE_FAILURE])
  }

  function SetPayment(s: State, id: BookingId, status: PaymentStatus, v: Verification): State
    requires id < |s.bookings| && s.bookings[id].payment.Some?
  {
    var p := s.bookings[id].payment.value;
    Put(s, id, s.bookings[id].(payment := Some(p.(status := status, verification := v))))
  }

  /** processWebhookResult for the payment the notification's transaction id belongs to. */
  function Webhook(s: State, id: BookingId, n: Notification, qrStored: bool): Result<State> {
    if id >= |s.bookings| || s.bookings[id].payment.None? then Err(NotFound)
    else
      var p := s.bookings[id].payment.value;
      if p.status != PayPending then Ok(s)
      else match n
        case Success => ConfirmBooking(SetPayment(s, id, PayCompleted, p.verification), id, qrStored)
        case Failure => Ok(FailBooking(SetPayment(s, id, PayFailed, p.verification), id))
        case StillPending => Ok(s)
  }

  /** `reviewed` says whether another admin holds a review lock that has not run out. */
  function ApprovePayment(s: State, id: BookingId, reviewed: bool, qrStored: bool): Result<State> {
    if id >= |s.bookings| || s.bookings[id].payment.None? then Err(NotFound)
    else
      var b := s.bookings[id];
      var p := b.payment.value;
      if p.verification !in {Unverified, Locked} || !p.screenshot || b.status != PendingPayment || reviewed then Err(BadRequest)
      else ConfirmBooking(SetPayment(s, id, PayCompleted, Approved), id, qrStored)
  }

  function RejectPayment(s: State, id: BookingId): Result<State> {
    if id >= |s.bookings| || s.bookings[id].payment.None? then Err(NotFound)
    else if s.bookings[id].payment.value.verification in {Rejected, Approved} then Err(BadRequest)
    else Ok(FailBooking(SetPayment(s, id, PayFailed, Rejected), id))
  }

  /** manual-payment's expirePayment, called once the payment's own deadline has passed. */
  function ExpirePayment(s: State, id: BookingId): Result<State> {
    if id >= |s.bookings| || s.bookings[id].payment.None? then Err(NotFound)
    else Ok(FailBooking(SetPayment(s, id, PayFailed, Expired), id))
  }

  /** POST /payments/initiate with the player's own wallet: debit and confirm, or record a failed payment. */
  function PayWithWallet(s: State, user: UserId, id: BookingId, now: int, qrStored: bool): Result<State> {
    var gate := PaymentGate(s, user, id, now);
    if gate.Err? then Err(gate.error)
    else if !gate.value then Ok(s)
    else
      var b := s.bookings[id];
      var debit := DebitWallet(s.wallets, user, b.deposit as real, BookingPayment);
      if debit.Err? then
        Ok(Put(s, id, b.(payment := Some(Payment(WalletBalance, PayFailed, Unverified, false)))))
      else
        var paid := Put(s, id, b.(payment := Some(Payment(WalletBalance, PayCompleted, Unverified, false))));
        ConfirmBooking(paid.(wallets := debit.value), id, qrStored)
  }

  // ---------- after payment ----------

  /** updateBookingStatus: the only writer that consults the transition table. */
  function UpdateStatus(s: State, id: BookingId, to: Status): Result<State> {
    if id >= |s.bookings| then Err(NotFound)
    else if !IsValidTransition(s.bookings[id].status, to) then Err(BadRequest)
    else Ok(Put(s, id, Advance(s.bookings[id], to)))
  }

  function MarkPaymentFailed(s: State, id: BookingId): Result<State> {
    var out := UpdateStatus(s, id, PaymentFailed);
    if out.Err? then out else Ok(SetSlot(out.value, s.bookings[id].slot, Available))
  }

  /** The two cron queries: unpaid past the payment deadline, and confirmed past the scheduled end. */
  datatype Query = Overdue(now: int) | PastEnd(now: int)

  predicate Matches(q: Query, b: Booking) {
    match q
    case Overdue(now) => b.status == PendingPayment && b.deadline < now
    case PastEnd(now) => b.status == Confirmed && b.endsAt < now
  }

  /** The ids a query selects, in table order. */
  function Select(bs: seq<Booking>, q: Query): seq<BookingId> {
    if bs == [] then []
    else
      var n := |bs| - 1;
      Select(bs[..n], q) + if Matches(q, bs[n]) then [n] else []
  }

  function FailEach(s: State, ids: seq<BookingId>): State {
    if ids == [] then s
    else
      var before := FailEach(s, ids[..|ids| - 1]);
      var id := ids[|ids| - 1];
      if id < |before.bookings| then FailBooking(before, id) else before
  }

  function ExpireUnpaid(s: State, now: int): State {
    FailEach(s, Select(s.bookings, Overdue(now)))
  }

  function NoShowEach(s: State, ids: seq<BookingId>): State {
    if ids == [] then s
    else
      var before := NoShowEach(s, ids[..|ids| - 1]);
      var id := ids[|ids| - 1];
      if id < |before.bookings| then
        var b := before.bookings[id];
        Put(before, id, b.(status := ExpiredNoShow, history := b.history + [Change(Some(Confirmed), ExpiredNoShow)]))
      else before
  }

  function ExpireNoShows(s: State, now: int): State {
    NoShowEach(s, Select(s.bookings, PastEnd(now)))
  }

  function RefundQuote(b: Booking, caller: UserId, now: int, s: Settings): Quote {
    if caller == b.owner then OwnerRefund(b.deposit)
    else PlayerRefund(b.deposit, b.startsAt - now, s.refunds)
  }

  predicate IsPaid(b: Booking) {
    b.payment.Some? && b.payment.value.status == PayCompleted
  }

  /** The three wallet movements of a paid-out refund, in the order the service makes them. */
  function PayRefund(s: State, b: Booking, q: Quote): Result<State> {
    var credited := CreditWallet(s.wallets, b.player, q.refund as real, Refund);
    if credited.Err? then Err(credited.error)
    else
      var platform := DebitAccount(s.platform, Share(b.commission, q.percent), BookingRefund);
      if platform.Err? then Err(platform.error)
      else
        var ownerRefund := Share(b.deposit - b.commission, q.percent);
        var debited := if ownerRefund > 0.0 then DebitWallet(credited.value, b.owner, ownerRefund, Refund)
                       else credited;
        if debited.Err? then Err(debited.error)
        else Ok(s.(wallets := debited.value, platform := platform.value))
  }

  function CancelBooking(s: State, caller: UserId, id: BookingId, now: int): Result<State> {
    if caller !in s.users || !s.users[caller].verified then Err(BadRequest)
    else if id >= |s.bookings| then Err(NotFound)
    else if caller != s.bookings[id].player && caller != s.bookings[id].owner then Err(Forbidden)
    else if s.bookings[id].status != PendingPayment && s.bookings[id].status != Confirmed then Err(BadRequest)
    else
      var b := s.bookings[id];
      var q := RefundQuote(b, caller, now, s.settings);
      var to := if q.refund > 0 then CancelledRefunded else CancelledNoRefund;
      var cancelled := Advance(b, to).(refundAmount := q.refund, refundPercent := q.percent);
      var released := SetSlot(Put(s, id, cancelled), b.slot, Available);
      if q.refund > 0 && IsPaid(b) then
        var paid := PayRefund(released, b, q);
        if paid.Err? then paid
        else Ok(SetPayment(paid.value, id, PayRefunded, b.payment.value.verification))
      else Ok(released)
  }

  predicate SameDay(a: int, b: int) {
    a / DAY == b / DAY
  }

  /** checkInBooking and verifyBookingId. */
  function CheckIn(s: State, caller: UserId, id: BookingId, now: int): Result<State> {
    if id >= |s.bookings| then Err(NotFound)
    else if s.bookings[id].owner != caller then Err(Forbidden)
    else if !SameDay(s.bookings[id].startsAt, now) then Err(BadRequest)
    else UpdateStatus(s, id, CheckedIn)
  }

  /** validateQrCode, for the QR code of this booking. */
  function ScanQr(s: State, caller: UserId, id: BookingId, now: int): Result<State> {
    if id >= |s.bookings| || s.bookings[id].qrUsed.None? then Err(NotFound)
    else
      var b := s.bookings[id];
      if b.qrUsed.value || b.status != Confirmed || !SameDay(b.startsAt, now) then Err(BadRequest)
      else if b.owner != caller then Err(Forbidden)
      else Ok(Put(s, id, Advance(b, CheckedIn).(qrUsed := Some(true))))
  }

  function CountNoShow(u: User, now: int): User {
    var n := u.noShows + 1;
    User(u.verified, if n >= 3 then Some(now + 30 * DAY) else u.suspendedUntil, n)
  }

  function MarkNoShow(s: State, caller: UserId, id: BookingId, now: int): Result<State> {
    if id >= |s.bookings| then Err(NotFound)
    else if s.bookings[id].owner != caller then Err(Forbidden)
    else
      var b := s.bookings[id];
      var out := UpdateStatus(s, id, NoShow);
      if out.Err? then out
      else if b.player !in s.users then Err(NotFound)
      else
        var users := s.users[b.player := CountNoShow(s.users[b.player], now)];
        var wallets := if b.commission > 0 then CreditWallet(s.wallets, b.owner, b.commission as real, Compensation)
                       else Ok(s.wallets);
        if wallets.Err? then Err(wallets.error)
        else Ok(out.value.(users := users, wallets := wallets.value))
  }

  // ---------- the rest of the system, as far as it touches these tables ----------

  function PlatformWithdraw(s: State, amount: real): Result<State> {
    var out := DebitAccount(s.platform, amount, AdminWithdrawal);
    if out.Err? then Err(out.error) else Ok(s.(platform := out.value))
  }

  /** A payout, a withdrawal hold or the restoring of one: the wallet movements that no booking explains. */
  function MoveWallet(s: State, u: UserId, side: Side, kind: Kind, amount: real): Result<State> {
    if !IsOutside(kind) then Err(BadRequest)
    else
      var out := if side == Credit then CreditWallet(s.wallets, u, amount, kind)
                 else DebitWallet(s.wallets, u, amount, kind);
      if out.Err? then Err(out.error) else Ok(s.(wallets := out.value))
  }

  function ChangeSettings(s: State, settings: Settings): Result<State> {
    if SettingsInRange(settings) then Ok(s.(settings := settings)) else Err(BadRequest)
  }

  /** A slot the calendar adds. */
  function AddSlot(s: State, x: SlotId, slot: Slot): Result<State> {
    if x in s.slots then Err(Conflict)
    else if slot.price < 0 then Err(BadRequest)
    else Ok(s.(slots := s.slots[x := slot.(status := Available)]))
  }

  /** The calendar changes day, times and price of a slot that is not booked; bookings keep their copies. */
  function UpdateSlot(s: State, x: SlotId, slot: Slot): Result<State> {
    if x !in s.slots then Err(NotFound)
    else if s.slots[x].status == Booked || slot.price < 0 then Err(BadRequest)
    else Ok(s.(slots := s.slots[x := slot.(field := s.slots[x].field, status := s.slots[x].status)]))
  }

  /** The calendar refuses to delete a booked slot, and the foreign key one that any booking refers to. */
  function RemoveSlot(s: State, x: SlotId): Result<State> {
    if x !in s.slots then Err(NotFound)
    else if s.slots[x].status == Booked then Err(BadRequest)
    else if exists i :: 0 <= i < |s.bookings| && s.bookings[i].slot == x then Err(Conflict)
    else Ok(s.(slots := s.slots - {x}))
  }

  // ---------- runs ----------

  datatype Event =
    | ECreate(user: UserId, slot: SlotId, now: int, timeAsText: bool)
    | EInitiate(user: UserId, id: BookingId, gateway: Gateway, accepted: bool, now: int)
    | EDeposit(user: UserId, id: BookingId, gateway: Gateway, cached: bool, now: int)
    | EUpload(user: UserId, id: BookingId, attemptsLeft: bool)
    | EWebhook(id: BookingId, notification: Notification, qrStored: bool)
    | EApprove(id: BookingId, reviewed: bool, qrStored: bool)
    | EReject(id: BookingId)
    | EExpirePayment(id: BookingId)
    | EWalletPay(user: UserId, id: BookingId, now: int, qrStored: bool)
    | EMarkPaymentFailed(id: BookingId)
    | EExpireUnpaid(now: int)
    | EExpireNoShows(now: int)
    | ECancel(user: UserId, id: BookingId, now: int)
    | ECheckIn(user: UserId, id: BookingId, now: int)
    | EScanQr(user: UserId, id: BookingId, now: int)
    | ENoShow(user: UserId, id: BookingId, now: int)
    | EComplete(id: BookingId)
    | EPlatformWithdraw(amount: real)
    | EMoveWallet(user: UserId, side: Side, kind: Kind, amount: real)
    | ESettings(settings: Settings)
    | EAddSlot(slot: SlotId, row: Slot)
    | EUpdateSlot(slot: SlotId, row: Slot)
    | ERemoveSlot(slot: SlotId)

  function Handle(s: State, e: Event): Result<State> {
    match e
    case ECreate(u, x, now, text) => CreateBooking(s, u, x, now, text)
    case EInitiate(u, id, g, accepted, now) => InitiatePayment(s, u, id, g, accepted, now)
    case EDeposit(u, id, g, cached, now) => InitiateDeposit(s, u, id, g, cached, now)
    case EUpload(u, id, attemptsLeft) => UploadScreenshot(s, u, id, attemptsLeft)
    case EWebhook(id, n, qr) => Webhook(s, id, n, qr)
    case EApprove(id, reviewed, qr) => ApprovePayment(s, id, reviewed, qr)
    case EReject(id) => RejectPayment(s, id)
    case EExpirePayment(id) => ExpirePayment(s, id)
    case EWalletPay(u, id, now, qr) => PayWithWallet(s, u, id, now, qr)
    case EMarkPaymentFailed(id) => MarkPaymentFailed(s, id)
    case EExpireUnpaid(now) => Ok(ExpireUnpaid(s, now))
    case EExpireNoShows(now) => Ok(ExpireNoShows(s, now))
    case ECancel(u, id, now) => CancelBooking(s, u, id, now)
    case ECheckIn(u, id, now) => CheckIn(s, u, id, now)
    case EScanQr(u, id, now) => ScanQr(s, u, id, now)
    case ENoShow(u, id, now) => MarkNoShow(s, u, id, now)
    case EComplete(id) => UpdateStatus(s, id, Completed)
    case EPlatformWithdraw(amount) => PlatformWithdraw(s, amount)
    case EMoveWallet(u, side, kind, amount) => MoveWallet(s, u, side, kind, amount)
    case ESettings(settings) => ChangeSettings(s, settings)
    case EAddSlot(x, slot) => AddSlot(s, x, slot)
    case EUpdateSlot(x, slot) => UpdateSlot(s, x, slot)
    case ERemoveSlot(x) => RemoveSlot(s, x)
  }

  /** A refused request changes nothing. */
  function Step(s: State, e: Event): State {
    var out := Handle(s, e);
    if out.Ok? then out.value else s
  }

  function Run(s: State, es: seq<Event>): State
    decreases |es|
  {
    if es == [] then s else Run(Step(s, es[0]), es[1..])
  }
}
