/** Cancelling a confirmed booking never fails for lack of money, as long as nobody spends what bookings brought in. */
module Solvency {
  import opened Wrappers
  import opened Money
  import opened Ledger
  import opened BookingStatus
  import opened Policy
  import opened BookingModel
  import opened BookingInvariants
  import opened BookingSteps

  /** Nobody but bookings has taken money out of the platform or out of this owner's wallet. */
  ghost predicate NoSpending(s: State, owner: UserId) {
    && Outside(s.platform.rows) >= 0
    && (owner in s.wallets ==> Outside(s.wallets[owner].rows) >= 0)
    && (forall i :: 0 <= i < |s.bookings| && s.bookings[i].player == owner ==> !PaidFromWallet(s.bookings[i]))
  }

  lemma EffectsNonNegative(b: Booking)
    requires BookingOk(b)
    ensures PlatformEffect(b) >= 0 && OwnerEffect(b) >= 0
    ensures !PaidFromWallet(b) ==> PlayerEffect(b) >= 0
  {
    SplitGapIsOneCent(b.deposit, b.commission, b.refundPercent);
    RefundBounds(b.deposit, b.refundPercent);
    assert |b.history| > 2 ==> Continues(b.history, 2) || b.history[2] == LATE_FAILURE;
  }

  lemma {:induction false} TotalAtLeast(p: Tally, bs: seq<Booking>, i: nat)
    requires i < |bs| && forall j :: 0 <= j < |bs| ==> Effect(p, bs[j]) >= 0
    ensures Total(p, bs) >= Effect(p, bs[i])
  {
    var n := |bs| - 1;
    if i < n {
      TotalAtLeast(p, bs[..n], i);
    } else if n > 0 {
      TotalAtLeast(p, bs[..n], 0);
    }
  }

  /** Without spending, platform and owner hold at least what this booking brought them. */
  lemma BalancesCover(s: State, id: BookingId)
    requires Accounted(s) && id < |s.bookings| && s.bookings[id].status == Confirmed && NoSpending(s, s.bookings[id].owner)
    ensures var b := s.bookings[id];
      && s.platform.balance >= b.deposit
      && (b.owner in s.wallets ==> s.wallets[b.owner].balance >= b.deposit - b.commission)
  {
    var b := s.bookings[id];
    assert BookingOk(b);
    AdvanceTrace(b, CheckedIn);
    forall j | 0 <= j < |s.bookings|
      ensures Effect(Platform, s.bookings[j]) >= 0 && Effect(Wallet(b.owner), s.bookings[j]) >= 0
    {
      assert BookingOk(s.bookings[j]);
      EffectsNonNegative(s.bookings[j]);
    }
    TotalAtLeast(Platform, s.bookings, id);
    TotalAtLeast(Wallet(b.owner), s.bookings, id);
  }

  /** The rounded shares of a refund never exceed what the booking brought in, and the platform's is positive iff there is a commission. */
  lemma SharesCovered(deposit: int, commission: int, percent: real)
    requires 0 <= commission <= deposit && IsPercent(percent)
    ensures HalfAway(Share(commission, percent)) <= commission
    ensures HalfAway(Share(deposit - commission, percent)) <= deposit - commission
    ensures PlayerGain(deposit, percent) > 0 ==> (Share(commission, percent) > 0.0 <==> commission > 0)
  {
    ShareBounds(commission, percent);
    ShareBounds(deposit - commission, percent);
    WholeCents(commission);
    WholeCents(deposit - commission);
    WholeCents(0);
    RoundingMonotone(Share(commission, percent), commission as real);
    RoundingMonotone(Share(deposit - commission, percent), (deposit - commission) as real);
    if percent == 0.0 {
      ShareBounds(deposit, percent);
    }
  }

  /**
   In every reachable state without spending, a permitted cancellation of a confirmed booking never
   fails for lack of money. It fails in one case only: a refund is due and the booking carries no
   commission, because the platform wallet refuses a debit of zero.
   */
  lemma CancellationIsSolvent(s: State, caller: UserId, id: BookingId, now: int)
    requires Accounted(s) && id < |s.bookings| && s.bookings[id].status == Confirmed && NoSpending(s, s.bookings[id].owner)
    requires caller in s.users && s.users[caller].verified
    requires caller == s.bookings[id].player || caller == s.bookings[id].owner
    requires s.bookings[id].player in s.wallets && s.bookings[id].owner in s.wallets
    ensures CancelBooking(s, caller, id, now).Ok? <==>
      RefundQuote(s.bookings[id], caller, now, s.settings).refund == 0 || s.bookings[id].commission > 0
    ensures CancelBooking(s, caller, id, now).Err? ==> CancelBooking(s, caller, id, now).error == AmountNotPositive
  {
    hide IsTrace, WellKept, Total, Outside, HalfAway, HalfDown, Share, MathRound;
    var b := s.bookings[id];
    assert BookingOk(b);
    var q := RefundQuote(b, caller, now, s.settings);
    QuoteOk(b, caller, now, s.settings);
    BalancesCover(s, id);
    SharesCovered(b.deposit, b.commission, q.percent);
    if q.refund > 0 {
      var to := CancelledRefunded;
      var cancelled := Advance(b, to).(refundAmount := q.refund, refundPercent := q.percent);
      var released := SetSlot(Put(s, id, cancelled), b.slot, Available);
      assert released.wallets == s.wallets && released.platform == s.platform;
      PayRefundSucceedsIff(released, b, q);
      ShareBounds(b.commission, q.percent);
      CreditWalletKeeps(s.wallets, b.player, q.refund as real, Refund);
    }
  }

  /** Anyone may rely on it: an unpaid booking can always be cancelled by its player or owner. */
  lemma UnpaidCancellationSucceeds(s: State, caller: UserId, id: BookingId, now: int)
    requires Accounted(s) && id < |s.bookings| && s.bookings[id].status == PendingPayment
    requires caller in s.users && s.users[caller].verified
    requires caller == s.bookings[id].player || caller == s.bookings[id].owner
    ensures CancelBooking(s, caller, id, now).Ok?
    ensures CancelBooking(s, caller, id, now).value.wallets == s.wallets
    ensures CancelBooking(s, caller, id, now).value.platform == s.platform
  {
    var b := s.bookings[id];
    assert BookingOk(b);
    TraceEnds(b.history, b.status);
  }

  // ---------- runs without spending ----------

  /** A withdrawal from the platform, or anything this owner takes out of or pays from the own wallet. */
  predicate Spends(e: Event, owner: UserId) {
    || e.EPlatformWithdraw?
    || (e.EMoveWallet? && e.user == owner && e.side == Debit)
    || (e.EWalletPay? && e.user == owner)
  }

  /**
   The accounts `ws` and `p` became `xs` and `q` without the owner's or the platform's outside money
   falling, and without a half-cent withdrawal from the platform.
   */
  ghost predicate OutsideKept(ws: map<UserId, Account>, p: Account, xs: map<UserId, Account>, q: Account, owner: UserId) {
    && Outside(p.rows) <= Outside(q.rows)
    && HalfRowsOf(q.rows, AdminWithdrawal) == HalfRowsOf(p.rows, AdminWithdrawal)
    && (owner in ws <==> owner in xs)
    && (owner in ws ==> Outside(ws[owner].rows) <= Outside(xs[owner].rows))
  }

  predicate HasWalletPayment(b: Booking) {
    b.payment.Some? && b.payment.value.gateway == WalletBalance
  }

  ghost predicate NoWalletPayment(s: State, owner: UserId) {
    forall i :: 0 <= i < |s.bookings| && s.bookings[i].player == owner ==> !HasWalletPayment(s.bookings[i])
  }

  ghost predicate Unspent(s: State, owner: UserId) {
    && Outside(s.platform.rows) >= 0
    && (owner in s.wallets ==> Outside(s.wallets[owner].rows) >= 0)
    && NoWalletPayment(s, owner)
  }

  lemma AccountOutside(a: Account, amount: real, kind: Kind)
    requires !IsOutside(kind)
    ensures CreditAccount(a, amount, kind).Ok? ==> Outside(CreditAccount(a, amount, kind).value.rows) == Outside(a.rows)
    ensures DebitAccount(a, amount, kind).Ok? ==> Outside(DebitAccount(a, amount, kind).value.rows) == Outside(a.rows)
    ensures CreditAccount(a, amount, kind).Ok? ==>
      HalfRowsOf(CreditAccount(a, amount, kind).value.rows, AdminWithdrawal) == HalfRowsOf(a.rows, AdminWithdrawal)
    ensures DebitAccount(a, amount, kind).Ok? ==>
      HalfRowsOf(DebitAccount(a, amount, kind).value.rows, AdminWithdrawal) == HalfRowsOf(a.rows, AdminWithdrawal)
  {
  }

  /** What bookings credit and debit is never outside money. */
  lemma WalletOutside(ws: map<UserId, Account>, p: Account, u: UserId, amount: real, kind: Kind, owner: UserId)
    requires !IsOutside(kind)
    ensures CreditWallet(ws, u, amount, kind).Ok? ==> OutsideKept(ws, p, CreditWallet(ws, u, amount, kind).value, p, owner)
    ensures DebitWallet(ws, u, amount, kind).Ok? ==> OutsideKept(ws, p, DebitWallet(ws, u, amount, kind).value, p, owner)
  {
  }

  lemma ConfirmUnspent(s: State, id: BookingId, qr: bool, owner: UserId)
    requires ConfirmBooking(s, id, qr).Ok?
    ensures var t := ConfirmBooking(s, id, qr).value; OutsideKept(s.wallets, s.platform, t.wallets, t.platform, owner)
  {
    hide Outside, HalfRowsOf, CreditAccount, DebitAccount;
    var b := s.bookings[id];
    AccountOutside(s.platform, b.deposit as real, BookingDeposit);
    WalletOutside(s.wallets, s.platform, b.owner, (b.deposit - b.commission) as real, BookingPayment, owner);
  }

  lemma RefundUnspent(s: State, b: Booking, q: Quote, owner: UserId)
    requires PayRefund(s, b, q).Ok?
    ensures var t := PayRefund(s, b, q).value; OutsideKept(s.wallets, s.platform, t.wallets, t.platform, owner)
  {
    hide Outside, HalfRowsOf, CreditAccount, DebitAccount;
    var credited := CreditWallet(s.wallets, b.player, q.refund as real, Refund).value;
    WalletOutside(s.wallets, s.platform, b.player, q.refund as real, Refund, owner);
    AccountOutside(s.platform, Share(b.commission, q.percent), BookingRefund);
    WalletOutside(credited, s.platform, b.owner, Share(b.deposit - b.commission, q.percent), Refund, owner);
  }

  lemma {:induction false} EachMovesNoMoney(s: State, ids: seq<BookingId>)
    ensures FailEach(s, ids).wallets == NoShowEach(s, ids).wallets == s.wallets
    ensures FailEach(s, ids).platform == NoShowEach(s, ids).platform == s.platform
    decreases |ids|
  {
    if ids != [] {
      EachMovesNoMoney(s, ids[..|ids| - 1]);
    }
  }

  lemma StepKeepsOutside(s: State, e: Event, owner: UserId)
    requires LedgersOk(s) && Handle(s, e).Ok? && !Spends(e, owner)
    ensures var t := Step(s, e); OutsideKept(s.wallets, s.platform, t.wallets, t.platform, owner)
  {
    hide OutsideKept, LedgersOk, PayWithWallet, CancelBooking, MarkNoShow, MoveWallet;
    match e
    case EWebhook(_, _, _) => NoticeUnspent(s, e, owner);
    case EApprove(_, _, _) => NoticeUnspent(s, e, owner);
    case EWalletPay(u, id, now, qr) => WalletPayUnspent(s, u, id, now, qr, owner);
    case ECancel(u, id, now) => CancelUnspent(s, u, id, now, owner);
    case ENoShow(u, id, now) => NoShowUnspent(s, u, id, now, owner);
    case EMoveWallet(u, side, kind, amount) => MoveUnspent(s, u, side, kind, amount, owner);
    case _ => OthersMoveNoMoney(s, e, owner);
  }

  lemma OthersMoveNoMoney(s: State, e: Event, owner: UserId)
    requires Handle(s, e).Ok?
    requires !e.EWebhook? && !e.EApprove? && !e.EWalletPay? && !e.ECancel? && !e.ENoShow?
          && !e.EMoveWallet? && !e.EPlatformWithdraw?
    ensures var t := Step(s, e); OutsideKept(s.wallets, s.platform, t.wallets, t.platform, owner)
  {
    hide Outside, HalfRowsOf, PriceBooking;
    if e.EExpireUnpaid? {
      EachMovesNoMoney(s, Select(s.bookings, Overdue(e.now)));
    } else if e.EExpireNoShows? {
      EachMovesNoMoney(s, Select(s.bookings, PastEnd(e.now)));
    }
  }

  lemma NoticeUnspent(s: State, e: Event, owner: UserId)
    requires Handle(s, e).Ok? && (e.EWebhook? || e.EApprove?)
    ensures var t := Step(s, e); OutsideKept(s.wallets, s.platform, t.wallets, t.platform, owner)
  {
    hide Outside, HalfRowsOf, ConfirmBooking;
    var p := s.bookings[e.id].payment.value;
    if e.EApprove? || (p.status == PayPending && e.notification == Success) {
      ConfirmUnspent(SetPayment(s, e.id, PayCompleted, if e.EApprove? then Approved else p.verification), e.id, e.qrStored, owner);
    }
  }

  lemma NoShowUnspent(s: State, u: UserId, id: BookingId, now: int, owner: UserId)
    requires MarkNoShow(s, u, id, now).Ok?
    ensures var t := MarkNoShow(s, u, id, now).value;
      OutsideKept(s.wallets, s.platform, t.wallets, t.platform, owner)
  {
    hide Outside, HalfRowsOf, CreditAccount;
    WalletOutside(s.wallets, s.platform, s.bookings[id].owner, s.bookings[id].commission as real, Compensation, owner);
  }

  lemma WalletPayUnspent(s: State, u: UserId, id: BookingId, now: int, qr: bool, owner: UserId)
    requires PayWithWallet(s, u, id, now, qr).Ok? && u != owner
    ensures var t := PayWithWallet(s, u, id, now, qr).value;
      OutsideKept(s.wallets, s.platform, t.wallets, t.platform, owner)
  {
    hide Outside, HalfRowsOf, CreditAccount, DebitAccount, ConfirmBooking;
    var b := s.bookings[id];
    var debit := DebitWallet(s.wallets, u, b.deposit as real, BookingPayment);
    if PaymentGate(s, u, id, now) == Ok(true) && debit.Ok? {
      var paid := Put(s, id, b.(payment := Some(Payment(WalletBalance, PayCompleted, Unverified, false))));
      ConfirmUnspent(paid.(wallets := debit.value), id, qr, owner);
    }
  }

  lemma CancelUnspent(s: State, u: UserId, id: BookingId, now: int, owner: UserId)
    requires CancelBooking(s, u, id, now).Ok?
    ensures var t := CancelBooking(s, u, id, now).value;
      OutsideKept(s.wallets, s.platform, t.wallets, t.platform, owner)
  {
    hide Outside, HalfRowsOf, PayRefund;
    var b := s.bookings[id];
    var q := RefundQuote(b, u, now, s.settings);
    if q.refund > 0 && IsPaid(b) {
      var cancelled := Advance(b, CancelledRefunded).(refundAmount := q.refund, refundPercent := q.percent);
      RefundUnspent(SetSlot(Put(s, id, cancelled), b.slot, Available), b, q, owner);
    }
  }

  lemma MoveUnspent(s: State, u: UserId, side: Side, kind: Kind, amount: real, owner: UserId)
    requires LedgersOk(s) && MoveWallet(s, u, side, kind, amount).Ok? && (u == owner ==> side == Credit)
    ensures var t := MoveWallet(s, u, side, kind, amount).value;
      OutsideKept(s.wallets, s.platform, t.wallets, t.platform, owner)
  {
  }

  /** Only a payment from the own wallet makes a booking one that was paid from the wallet. */
  ghost predicate GatewayKept(s: State, t: State, i: BookingId, payer: Option<UserId>) {
    i < |t.bookings| && HasWalletPayment(t.bookings[i]) ==>
      && i < |s.bookings| && s.bookings[i].player == t.bookings[i].player
      && (HasWalletPayment(s.bookings[i]) || payer == Some(t.bookings[i].player))
  }

  lemma {:induction false} EachKeepsGateway(s: State, ids: seq<BookingId>, i: BookingId)
    ensures GatewayKept(s, FailEach(s, ids), i, None) && GatewayKept(s, NoShowEach(s, ids), i, None)
    decreases |ids|
  {
    if ids != [] {
      EachKeepsGateway(s, ids[..|ids| - 1], i);
    }
  }

  lemma PaymentKeepsGateway(s: State, e: Event, i: BookingId)
    requires Handle(s, e).Ok?
    requires e.EInitiate? || e.EDeposit? || e.EUpload? || e.EReject? || e.EExpirePayment?
    ensures GatewayKept(s, Step(s, e), i, None)
  {
  }

  lemma NoticeKeepsGateway(s: State, e: Event, i: BookingId)
    requires Handle(s, e).Ok? && (e.EWebhook? || e.EApprove?)
    ensures GatewayKept(s, Step(s, e), i, None)
  {
    hide ConfirmBooking;
    var p := s.bookings[e.id].payment.value;
    if e.EApprove? || (p.status == PayPending && e.notification == Success) {
      ConfirmKeepsGateway(SetPayment(s, e.id, PayCompleted, if e.EApprove? then Approved else p.verification), e.id, e.qrStored, i);
    }
  }

  lemma ConfirmKeepsGateway(s: State, id: BookingId, qr: bool, i: BookingId)
    requires ConfirmBooking(s, id, qr).Ok?
    ensures GatewayKept(s, ConfirmBooking(s, id, qr).value, i, None)
  {
  }

  lemma WalletPayKeepsGateway(s: State, u: UserId, id: BookingId, now: int, qr: bool, i: BookingId)
    requires PayWithWallet(s, u, id, now, qr).Ok?
    ensures GatewayKept(s, PayWithWallet(s, u, id, now, qr).value, i, Some(u))
  {
    hide CreditWallet, CreditAccount, DebitWallet;
  }

  lemma BookingKeepsGateway(s: State, e: Event, i: BookingId)
    requires Handle(s, e).Ok?
    requires e.ECreate? || e.EMarkPaymentFailed? || e.ECheckIn? || e.EScanQr? || e.ENoShow? || e.EComplete?
    ensures GatewayKept(s, Step(s, e), i, None)
  {
    hide CreditWallet, CreditAccount, DebitWallet, DebitAccount, PriceBooking, RefundQuote;
  }

  lemma CancelKeepsGateway(s: State, u: UserId, id: BookingId, now: int, i: BookingId)
    requires CancelBooking(s, u, id, now).Ok?
    ensures GatewayKept(s, CancelBooking(s, u, id, now).value, i, None)
  {
    hide CreditWallet, CreditAccount, DebitWallet, DebitAccount, RefundQuote;
  }

  lemma GatewayStep(s: State, e: Event, i: BookingId)
    ensures GatewayKept(s, Step(s, e), i, if e.EWalletPay? then Some(e.user) else None)
  {
    hide GatewayKept;
    if Handle(s, e).Err? {
      NothingKeepsGateway(s, s, i);
    } else {
      match e
      case EWalletPay(u, id, now, qr) => WalletPayKeepsGateway(s, u, id, now, qr, i);
      case ECancel(u, id, now) => CancelKeepsGateway(s, u, id, now, i);
      case EExpireUnpaid(now) => EachKeepsGateway(s, Select(s.bookings, Overdue(now)), i);
      case EExpireNoShows(now) => EachKeepsGateway(s, Select(s.bookings, PastEnd(now)), i);
      case EPlatformWithdraw(_) => NothingKeepsGateway(s, Step(s, e), i);
      case EMoveWallet(_, _, _, _) => NothingKeepsGateway(s, Step(s, e), i);
      case ESettings(_) => NothingKeepsGateway(s, Step(s, e), i);
      case EAddSlot(_, _) => NothingKeepsGateway(s, Step(s, e), i);
      case EUpdateSlot(_, _) => NothingKeepsGateway(s, Step(s, e), i);
      case ERemoveSlot(_) => NothingKeepsGateway(s, Step(s, e), i);
      case EInitiate(_, _, _, _, _) => PaymentKeepsGateway(s, e, i);
      case EDeposit(_, _, _, _, _) => PaymentKeepsGateway(s, e, i);
      case EUpload(_, _, _) => PaymentKeepsGateway(s, e, i);
      case EWebhook(_, _, _) => NoticeKeepsGateway(s, e, i);
      case EApprove(_, _, _) => NoticeKeepsGateway(s, e, i);
      case EReject(_) => PaymentKeepsGateway(s, e, i);
      case EExpirePayment(_) => PaymentKeepsGateway(s, e, i);
      case _ => BookingKeepsGateway(s, e, i);
    }
  }

  lemma NothingKeepsGateway(s: State, t: State, i: BookingId)
    requires t.bookings == s.bookings
    ensures forall payer :: GatewayKept(s, t, i, payer)
  {
  }

  lemma UnspentStep(s: State, e: Event, owner: UserId)
    requires LedgersOk(s) && Unspent(s, owner) && !Spends(e, owner)
    ensures Unspent(Step(s, e), owner)
  {
    hide Outside, HalfRowsOf, LedgersOk;
    var t := Step(s, e);
    if Handle(s, e).Ok? {
      StepKeepsOutside(s, e, owner);
    }
    hide Step, Handle;
    forall i | 0 <= i < |t.bookings| && t.bookings[i].player == owner
      ensures !HasWalletPayment(t.bookings[i])
    {
      GatewayStep(s, e, i);
    }
  }

  ghost predicate NoSpendingIn(es: seq<Event>, owner: UserId) {
    forall i :: 0 <= i < |es| ==> !Spends(es[i], owner)
  }

  lemma {:induction false} UnspentRun(s: State, es: seq<Event>, owner: UserId)
    requires Accounted(s) && Unspent(s, owner) && NoSpendingIn(es, owner)
    ensures Accounted(Run(s, es)) && Unspent(Run(s, es), owner)
    decreases |es|
  {
    hide Accounted, Unspent, Step, Spends;
    if es != [] {
      assert LedgersOk(s) by {
        AccountsHoldLedgers(s);
      }
      UnspentStep(s, es[0], owner);
      StepKeepsAccounts(s, es[0]);
      UnspentRun(Step(s, es[0]), es[1..], owner);
    }
  }

  lemma AccountsHoldLedgers(s: State)
    requires Accounted(s)
    ensures LedgersOk(s)
  {
  }

  /**
   Solvency over whole runs: from a fresh system, as long as nothing is withdrawn from the platform and
   the owner takes nothing out of the own wallet, any confirmed booking of the owner can be cancelled
   and refunded, unless it carries no commission.
   */
  lemma SolventRun(s: State, es: seq<Event>, caller: UserId, id: BookingId, now: int)
    requires Init(s)
    requires var t := Run(s, es);
      && id < |t.bookings| && t.bookings[id].status == Confirmed && NoSpendingIn(es, t.bookings[id].owner)
      && caller in t.users && t.users[caller].verified
      && (caller == t.bookings[id].player || caller == t.bookings[id].owner)
      && t.bookings[id].player in t.wallets && t.bookings[id].owner in t.wallets
    ensures var t := Run(s, es);
      CancelBooking(t, caller, id, now).Ok? <==>
        RefundQuote(t.bookings[id], caller, now, t.settings).refund == 0 || t.bookings[id].commission > 0
  {
    hide CancelBooking, Run;
    var t := Run(s, es);
    var owner := t.bookings[id].owner;
    InitOk(s);
    UnspentRun(s, es, owner);
    assert NoSpending(t, owner);
    CancellationIsSolvent(t, caller, id, now);
  }

  // ---------- the one case that fails ----------

  /** A field without commission, its owner 2, a player 1, and wallets for both. */
  function CommissionFreeStart(): State {
    State(map[1 := User(true, None, 0), 2 := User(true, None, 0)], map[0 := Field(2, Some(0.0), false)],
          map[0 := Slot(0, DAY, DAY + 60 * MINUTE, 1000, Available)], [],
          map[1 := EMPTY_ACCOUNT, 2 := EMPTY_ACCOUNT], EMPTY_ACCOUNT, Settings(None, None, DEFAULT_REFUNDS))
  }

  function CommissionFreeRun(): seq<Event> {
    [ECreate(1, 0, 0, true), EInitiate(1, 0, Stripe, true, 0), EWebhook(0, Success, true)]
  }

  lemma CommissionFreePrices()
    ensures PriceBooking(1000, Some(0.0), CommissionFreeStart().settings) == Ok(Price(1000, 0, 1000))
  {
    assert Share(1000, 100.0) == 1000.0 && Share(1000, 0.0) == 0.0;
    WholeCents(1000);
    WholeCents(0);
  }

  /** The booking as it is created and as it awaits payment. */
  function CommissionFreeRow(p: Option<Payment>): Booking {
    NewBooking(1, 2, 0, CommissionFreeStart().slots[0], Price(1000, 0, 1000), 0).(payment := p)
  }

  lemma CommissionFreePayment()
    ensures var s := Run(CommissionFreeStart(), CommissionFreeRun()[..2]);
      && s.users == CommissionFreeStart().users && s.wallets == CommissionFreeStart().wallets
      && s.platform == EMPTY_ACCOUNT && s.settings == CommissionFreeStart().settings
      && s.bookings == [CommissionFreeRow(Some(Payment(Stripe, PayPending, Unverified, false)))]
  {
    CommissionFreePrices();
    hide PriceBooking;
    var s0, es := CommissionFreeStart(), CommissionFreeRun()[..2];
    var s1 := Step(s0, es[0]);
    assert s1.bookings == [CommissionFreeRow(None)];
    var s2 := Step(s1, es[1]);
    assert s2.bookings == [CommissionFreeRow(Some(Payment(Stripe, PayPending, Unverified, false)))];
    assert es[1..] == [es[1]] && [es[1]][1..] == [];
    assert Run(s0, es) == Run(s1, [es[1]]) == Run(s2, []);
  }

  lemma CommissionFreeConfirmation(s: State)
    requires s.bookings == [CommissionFreeRow(Some(Payment(Stripe, PayPending, Unverified, false)))]
    requires s.wallets == CommissionFreeStart().wallets && s.platform == EMPTY_ACCOUNT
    ensures var t := Step(s, EWebhook(0, Success, true));
      && t.users == s.users && t.settings == s.settings && t.wallets.Keys == s.wallets.Keys && |t.bookings| == 1
      && var b := t.bookings[0];
      b.status == Confirmed && b.owner == 2 && b.player == 1 && b.commission == 0 && b.deposit == 1000
  {
    hide HalfAway;
  }

  lemma CommissionFreeBooking()
    ensures var t := Run(CommissionFreeStart(), CommissionFreeRun());
      && t.users == CommissionFreeStart().users && t.settings == CommissionFreeStart().settings
      && t.wallets.Keys == CommissionFreeStart().wallets.Keys && |t.bookings| == 1
      && var b := t.bookings[0];
      b.status == Confirmed && b.owner == 2 && b.player == 1 && b.commission == 0 && b.deposit == 1000
  {
    var s, es := CommissionFreeStart(), CommissionFreeRun();
    CommissionFreePayment();
    CommissionFreeConfirmation(Run(s, es[..2]));
    RunSplits(s, es, 2);
    assert es[2..] == [es[2]] && [es[2]][1..] == [];
    hide Step;
    assert Run(s, es) == Step(Run(s, es[..2]), es[2]);
  }

  lemma CommissionFreeIsThrifty()
    ensures Init(CommissionFreeStart()) && NoSpendingIn(CommissionFreeRun(), 2)
  {
  }

  /** The owner then cannot cancel at all: the full refund is due, and the platform's part of it is a debit of zero. */
  lemma CommissionFreeCancellationFails()
    ensures CancelBooking(Run(CommissionFreeStart(), CommissionFreeRun()), 2, 0, 0).Err?
  {
    hide CancelBooking, Run, Init, NoSpendingIn, CommissionFreeRun;
    CommissionFreeBooking();
    CommissionFreeIsThrifty();
    RefundBounds(1000, 100.0);
    SolventRun(CommissionFreeStart(), CommissionFreeRun(), 2, 0, 0);
  }
}
