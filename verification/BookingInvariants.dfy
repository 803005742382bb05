/**
 What the booking tables satisfy, in three parts: the accounts, which every step keeps; the slots and
 the histories, which every step keeps but a failure writer that comes too late.
 */
module BookingInvariants {
  import opened Wrappers
  import opened Money
  import opened Ledger
  import opened BookingStatus
  import opened Policy
  import opened BookingModel

  // ---------- what one booking explains ----------

  /** What a booking adds to: two kinds of balances, in cents, and two kinds of platform rows. */
  datatype Tally = Platform | Wallet(user: UserId) | DepositRows | RefundRows

  predicate WasConfirmed(b: Booking) {
    |b.history| > 1 && b.history[1].to == Confirmed
  }

  /** A confirmed booking is always paid, so this row is written exactly when the refund is paid out. */
  predicate WasRefunded(b: Booking) {
    |b.history| > 2 && b.history[2] == Change(Some(Confirmed), CancelledRefunded)
  }

  predicate WasNoShow(b: Booking) {
    |b.history| > 2 && b.history[2].to == NoShow
  }

  predicate PaidFromWallet(b: Booking) {
    b.payment.Some? && b.payment.value.gateway == WalletBalance && WasConfirmed(b)
  }

  /** Cents the platform holds because of this booking: its deposit, less its rounded share of a refund. */
  function PlatformEffect(b: Booking): int {
    (if WasConfirmed(b) then b.deposit else 0)
    - (if WasRefunded(b) then PlatformLoss(b.commission, b.refundPercent) else 0)
  }

  /** Cents the owner's wallet holds because of it: the share, the commission after a no-show, less the refund. */
  function OwnerEffect(b: Booking): int {
    (if WasConfirmed(b) then b.deposit - b.commission else 0)
    + (if WasNoShow(b) then b.commission else 0)
    - (if WasRefunded(b) then OwnerLoss(b.deposit, b.commission, b.refundPercent) else 0)
  }

  /** Cents the player's wallet holds because of it: the refund, less the deposit if the wallet paid it. */
  function PlayerEffect(b: Booking): int {
    (if WasRefunded(b) then b.refundAmount else 0) - (if PaidFromWallet(b) then b.deposit else 0)
  }

  function Effect(p: Tally, b: Booking): int {
    match p
    case Platform => PlatformEffect(b)
    case Wallet(u) => (if b.owner == u then OwnerEffect(b) else 0) + (if b.player == u then PlayerEffect(b) else 0)
    case DepositRows => if WasConfirmed(b) then 1 else 0
    case RefundRows => if WasRefunded(b) then 1 else 0
  }

  function Total(p: Tally, bs: seq<Booking>): int {
    if bs == [] then 0 else Total(p, bs[..|bs| - 1]) + Effect(p, bs[|bs| - 1])
  }

  /** The part of a balance that bookings have to explain: all of it but payouts, withdrawals and their reversals. */
  function Explained(a: Account): int {
    a.balance - Outside(a.rows)
  }

  // ---------- the accounts ----------

  ghost predicate PaymentOk(b: Booking, p: Payment) {
    && (p.status == PayCompleted ==> WasConfirmed(b))
    && (p.status == PayRefunded ==> WasRefunded(b))
    && (p.gateway == WalletBalance ==> !p.screenshot && p.status != PayPending && (WasConfirmed(b) || p.status == PayFailed))
  }

  ghost predicate BookingOk(b: Booking) {
    && IsTrace(b.history, b.status)
    && 0 <= b.commission <= b.deposit <= b.total
    && b.ownerRevenue == b.deposit - b.commission
    && b.player != b.owner
    && IsPercent(b.refundPercent)
    && (WasConfirmed(b) ==> b.deposit > 0)
    && (b.status == Confirmed ==> IsPaid(b))
    && (WasRefunded(b) ==> b.commission > 0 && b.refundAmount == PlayerGain(b.deposit, b.refundPercent))
    && (b.payment.Some? ==> PaymentOk(b, b.payment.value))
  }

  ghost predicate BookingsOk(s: State) {
    forall i :: 0 <= i < |s.bookings| ==> BookingOk(s.bookings[i])
  }

  /**
   Every balance is what the bookings explain plus what payouts and withdrawals moved, and the platform
   has one deposit row per booking ever confirmed and one refund row per booking refunded.
   */
  ghost predicate BooksOk(s: State) {
    && Explained(s.platform) == Total(Platform, s.bookings)
    && (forall u :: u in s.wallets ==> Explained(s.wallets[u]) == Total(Wallet(u), s.bookings))
    && CountKind(s.platform.rows, BookingDeposit) == Total(DepositRows, s.bookings)
    && CountKind(s.platform.rows, BookingRefund) == Total(RefundRows, s.bookings)
  }

  ghost predicate LedgersOk(s: State) {
    && WellKept(s.platform) && PlatformRows(s.platform.rows)
    && (forall u :: u in s.wallets ==> WellKept(s.wallets[u]))
  }

  ghost predicate RangesOk(s: State) {
    && SettingsInRange(s.settings)
    && (forall f :: f in s.fields && s.fields[f].commissionRate.Some? ==> s.fields[f].commissionRate.value >= 0.0)
    && (forall x :: x in s.slots ==> s.slots[x].price >= 0)
  }

  ghost predicate Accounted(s: State) {
    BookingsOk(s) && BooksOk(s) && LedgersOk(s) && RangesOk(s)
  }

  // ---------- slots and histories ----------

  predicate Active(b: Booking) {
    b.status !in {Cancelled, CancelledRefunded, CancelledNoRefund, PaymentFailed}
  }

  ghost predicate Holds(bs: seq<Booking>, i: int, x: SlotId) {
    0 <= i < |bs| && bs[i].slot == x && Active(bs[i])
  }

  /** A slot is BOOKED exactly when a booking holds it, and no two bookings hold the same slot. */
  ghost predicate SlotsOk(s: State) {
    && (forall i :: 0 <= i < |s.bookings| ==> s.bookings[i].slot in s.slots)
    && (forall x, i, j :: Holds(s.bookings, i, x) && Holds(s.bookings, j, x) ==> i == j)
    && (forall x :: x in s.slots ==> (s.slots[x].status == Booked <==> exists i :: Holds(s.bookings, i, x)))
  }

  /** Every history is a path of the state machine. */
  ghost predicate PathsOk(s: State) {
    forall i :: 0 <= i < |s.bookings| ==> IsPath(s.bookings[i].history, s.bookings[i].status)
  }

  ghost predicate Init(s: State) {
    && s.bookings == []
    && s.platform == EMPTY_ACCOUNT
    && (forall u :: u in s.wallets ==> s.wallets[u] == EMPTY_ACCOUNT)
    && (forall x :: x in s.slots ==> s.slots[x].status != Booked)
    && RangesOk(s)
  }

  lemma InitOk(s: State)
    requires Init(s)
    ensures Accounted(s) && SlotsOk(s) && PathsOk(s)
  {
  }

  // ---------- sums over the booking table ----------

  lemma {:induction false} TotalUpdate(p: Tally, bs: seq<Booking>, i: nat, b: Booking)
    requires i < |bs|
    ensures Total(p, bs[i := b]) == Total(p, bs) - Effect(p, bs[i]) + Effect(p, b)
  {
    var n := |bs| - 1;
    if i == n {
      assert bs[i := b][..n] == bs[..n];
    } else {
      assert bs[i := b][..n] == bs[..n][i := b];
      TotalUpdate(p, bs[..n], i, b);
    }
  }

  /** A state whose accounts moved by exactly what replacing one booking changes still has its books in order. */
  lemma {:induction false} BooksAfterPut(s: State, t: State, id: BookingId, b: Booking)
    requires BooksOk(s) && id < |s.bookings| && t.bookings == s.bookings[id := b]
    requires Explained(t.platform) == Explained(s.platform) + PlatformEffect(b) - PlatformEffect(s.bookings[id])
    requires t.wallets.Keys == s.wallets.Keys
    requires forall u :: u in s.wallets ==>
      Explained(t.wallets[u]) == Explained(s.wallets[u]) + Effect(Wallet(u), b) - Effect(Wallet(u), s.bookings[id])
    requires CountKind(t.platform.rows, BookingDeposit) - CountKind(s.platform.rows, BookingDeposit)
          == Effect(DepositRows, b) - Effect(DepositRows, s.bookings[id])
    requires CountKind(t.platform.rows, BookingRefund) - CountKind(s.platform.rows, BookingRefund)
          == Effect(RefundRows, b) - Effect(RefundRows, s.bookings[id])
    ensures BooksOk(t)
  {
    TotalUpdate(Platform, s.bookings, id, b);
    TotalUpdate(DepositRows, s.bookings, id, b);
    TotalUpdate(RefundRows, s.bookings, id, b);
    forall u | u in t.wallets
      ensures Explained(t.wallets[u]) == Total(Wallet(u), t.bookings)
    {
      TotalUpdate(Wallet(u), s.bookings, id, b);
    }
  }

  // ---------- wallets ----------

  ghost predicate AllKept(ws: map<UserId, Account>) {
    forall u :: u in ws ==> WellKept(ws[u])
  }

  /** `xs` is `ws` with the explained part of u's balance changed by `delta` and every other wallet untouched. */
  ghost predicate WalletChanged(ws: map<UserId, Account>, xs: map<UserId, Account>, u: UserId, delta: int) {
    && xs.Keys == ws.Keys && AllKept(xs)
    && (forall v :: v in ws && v != u ==> xs[v] == ws[v])
    && (u in ws ==> Explained(xs[u]) == Explained(ws[u]) + delta)
  }

  lemma CreditWalletKeeps(ws: map<UserId, Account>, u: UserId, amount: real, kind: Kind)
    requires AllKept(ws)
    ensures CreditWallet(ws, u, amount, kind).Ok? <==> amount > 0.0 && u in ws
    ensures CreditWallet(ws, u, amount, kind).Ok? ==>
      WalletChanged(ws, CreditWallet(ws, u, amount, kind).value, u, if IsOutside(kind) then 0 else HalfAway(amount))
  {
    if u in ws {
      CreditKeeps(ws[u], amount, kind);
    }
  }

  lemma DebitWalletKeeps(ws: map<UserId, Account>, u: UserId, amount: real, kind: Kind)
    requires AllKept(ws)
    ensures DebitWallet(ws, u, amount, kind).Ok? <==> amount > 0.0 && u in ws && HalfAway(amount) <= ws[u].balance
    ensures DebitWallet(ws, u, amount, kind).Ok? ==>
      WalletChanged(ws, DebitWallet(ws, u, amount, kind).value, u, if IsOutside(kind) then 0 else -HalfDown(amount))
  {
    if u in ws {
      DebitKeeps(ws[u], amount, kind);
    }
  }

  lemma PlatformRowAdded(a: Account, b: Account)
    requires PlatformRows(a.rows) && |b.rows| == |a.rows| + 1 && b.rows[..|a.rows|] == a.rows
    requires PlatformKind(b.rows[|a.rows|].side, b.rows[|a.rows|].kind)
    ensures PlatformRows(b.rows)
  {
  }

  // ---------- creation, and changes that move no money ----------

  lemma NewBookingOk(user: UserId, owner: UserId, x: SlotId, slot: Slot, rate: Option<real>, settings: Settings, now: int)
    requires slot.price >= 0 && user != owner && SettingsInRange(settings) && (rate.Some? ==> rate.value >= 0.0)
    requires PriceBooking(slot.price, rate, settings).Ok?
    ensures var b := NewBooking(user, owner, x, slot, PriceBooking(slot.price, rate, settings).value, now);
      BookingOk(b) && (forall p :: Effect(p, b) == 0)
  {
    PriceFits(slot.price, rate, settings);
  }

  lemma {:induction false} BooksAfterCreate(s: State, t: State, b: Booking)
    requires BooksOk(s) && t.bookings == s.bookings + [b] && t.wallets == s.wallets && t.platform == s.platform
    requires forall p :: Effect(p, b) == 0
    ensures BooksOk(t)
  {
  }

  lemma CreateKeepsAccounts(s: State, user: UserId, x: SlotId, now: int, text: bool)
    requires Accounted(s) && CreateBooking(s, user, x, now, text).Ok?
    ensures Accounted(CreateBooking(s, user, x, now, text).value)
  {
    hide IsTrace, WellKept, Total, Outside, HalfAway, Share;
    var t := CreateBooking(s, user, x, now, text).value;
    var slot := s.slots[x];
    var field := s.fields[slot.field];
    var b := t.bookings[|s.bookings|];
    NewBookingOk(user, field.owner, x, slot, field.commissionRate, s.settings, now);
    BooksAfterCreate(s, t, b);
  }

  /** Replacing a booking by one that explains its money in the same way. */
  lemma {:induction false} QuietPut(s: State, id: BookingId, b: Booking)
    requires Accounted(s) && id < |s.bookings| && BookingOk(b)
    requires forall p :: Effect(p, b) == Effect(p, s.bookings[id])
    ensures Accounted(Put(s, id, b))
  {
    assert Effect(Platform, b) == Effect(Platform, s.bookings[id]);
    assert Effect(DepositRows, b) == Effect(DepositRows, s.bookings[id]);
    assert Effect(RefundRows, b) == Effect(RefundRows, s.bookings[id]);
    BooksAfterPut(s, Put(s, id, b), id, b);
  }

  lemma SetSlotKeepsAccounts(s: State, x: SlotId, status: SlotStatus)
    requires Accounted(s)
    ensures Accounted(SetSlot(s, x, status))
  {
  }
}
