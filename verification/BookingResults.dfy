/** What users of the booking system may rely on, over whole runs. */
module BookingResults {
  import opened Wrappers
  import opened Ledger
  import opened BookingStatus
  import opened Policy
  import opened BookingModel
  import opened BookingInvariants
  import opened BookingSteps
  import opened BookingSlots
  import opened BookingHistories

  // ---------- slots, balances and histories over runs ----------

  /** A run from a fresh system has every slot right all along if and only if no failure writer robs a booking. */
  lemma OneHolderPerSlot(s: State, es: seq<Event>)
    requires Init(s)
    ensures SlotsAlong(s, es) <==> NoRobbery(s, es)
    ensures NoRobbery(s, es) ==>
      var t := Run(s, es);
      && (forall x :: x in t.slots ==> (t.slots[x].status == Booked <==> exists i :: Holds(t.bookings, i, x)))
      && (forall x, i, j :: Holds(t.bookings, i, x) && Holds(t.bookings, j, x) ==> i == j)
  {
    InitOk(s);
    RunKeepsSlotsIff(s, es);
  }

  /** A robbed slot is AVAILABLE although it is held: whoever books it next becomes its second holder. */
  lemma RobberyDoubleBooks(s: State, e: Event, user: UserId, now: int, text: bool)
    requires SlotsOk(s) && Robs(s, e)
    requires CreateBooking(Step(s, e), user, s.bookings[FailureTarget(s, e).value].slot, now, text).Ok?
    ensures var x := s.bookings[FailureTarget(s, e).value].slot;
      var t := CreateBooking(Step(s, e), user, x, now, text).value;
      exists i, j :: i != j && Holds(t.bookings, i, x) && Holds(t.bookings, j, x)
  {
    var id := FailureTarget(s, e).value;
    var x := s.bookings[id].slot;
    var j :| Holds(s.bookings, j, x);
    var v := FailureStep(s, e);
    var u := Step(s, e);
    assert u.bookings[j] == s.bookings[j];
    var t := CreateBooking(u, user, x, now, text).value;
    assert Holds(t.bookings, j, x) && Holds(t.bookings, |u.bookings|, x);
  }

  /** In every state of every run, misfires and robberies included, the bookings explain all balances. */
  lemma BalancesAreExplained(s: State, es: seq<Event>)
    requires Init(s)
    ensures var t := Run(s, es);
      && t.platform.balance == Total(Platform, t.bookings) + Outside(t.platform.rows)
      && t.platform.balance - NetFlow(t.platform.rows) == HalfRows(t.platform.rows)
      && t.platform.balance >= 0
      && (forall u :: u in t.wallets ==>
            && t.wallets[u].balance == Total(Wallet(u), t.bookings) + Outside(t.wallets[u].rows)
            && t.wallets[u].balance == Replay(t.wallets[u].rows) + HalfRows(t.wallets[u].rows)
            && t.wallets[u].balance >= 0)
  {
    InitOk(s);
    RunKeepsAccounts(s, es);
    var t := Run(s, es);
    ReplayGap(t.platform);
    NetFlowIsReplay(t.platform.rows);
    forall u | u in t.wallets
      ensures t.wallets[u].balance == Replay(t.wallets[u].rows) + HalfRows(t.wallets[u].rows)
    {
      ReplayGap(t.wallets[u]);
    }
  }

  /**
   A run from a fresh system has every history a path of the state machine all along if and only if
   nothing misfires; in any run, a history that is no path belongs to a booking that has failed for good.
   */
  lemma HistoriesArePaths(s: State, es: seq<Event>)
    requires Init(s)
    ensures PathsAlong(s, es) <==> NoMisfire(s, es)
    ensures var t := Run(s, es);
      forall i :: 0 <= i < |t.bookings| ==>
        IsPath(t.bookings[i].history, t.bookings[i].status) || t.bookings[i].status == PaymentFailed
  {
    InitOk(s);
    RunKeepsPathsIff(s, es);
    RunKeepsAccounts(s, es);
    var t := Run(s, es);
    forall i | 0 <= i < |t.bookings|
      ensures IsPath(t.bookings[i].history, t.bookings[i].status) || t.bookings[i].status == PaymentFailed
    {
      assert BookingOk(t.bookings[i]);
      TraceIsPathOrFailed(t.bookings[i].history, t.bookings[i].status);
    }
  }

  /**
   Why the failure writers need their missing guard: a player cancels an unpaid booking, another
   player takes the slot, the gateway's late failure notice for the first booking frees the slot
   again, and a third player books it. Two live bookings then hold one slot.
   */
  function LateFailureRun(): seq<Event> {
    [ECreate(1, 0, 0, true), EInitiate(1, 0, Stripe, true, 0), ECancel(1, 0, 0), ECreate(3, 0, 0, true),
     EWebhook(0, Failure, true), ECreate(4, 0, 0, true)]
  }

  function LateFailureStart(): State {
    var player := User(true, None, 0);
    State(map[1 := player, 3 := player, 4 := player], map[0 := Field(2, None, false)],
          map[0 := Slot(0, DAY, DAY + 60 * MINUTE, 1000, Available)], [], map[], EMPTY_ACCOUNT,
          Settings(None, None, DEFAULT_REFUNDS))
  }

  lemma LateFailurePrices()
    ensures PriceBooking(1000, None, LateFailureStart().settings) == Ok(Price(1000, 100, 900))
    ensures PlayerRefund(1000, DAY, DEFAULT_REFUNDS).refund == 1000
  {
    ThreeHourRule(1000, DAY);
  }

  /** What the run relies on at each point: slot 0 and the three players are as they were at the start. */
  predicate AsAtStart(s: State) {
    var start := LateFailureStart();
    && s.users == start.users && s.fields == start.fields && s.settings == start.settings
    && s.slots == start.slots
  }

  /** The slot is taken by whoever books it while it is free. */
  lemma LateFailureBooks(s: State, user: UserId)
    requires AsAtStart(s) && user in {1, 3, 4}
    ensures var t := Step(s, ECreate(user, 0, 0, true));
      && |t.bookings| == |s.bookings| + 1 && t.bookings[..|s.bookings|] == s.bookings
      && Holds(t.bookings, |s.bookings|, 0)
      && t.bookings[|s.bookings|] == NewBooking(user, 2, 0, s.slots[0], Price(1000, 100, 900), 0)
      && t == s.(bookings := t.bookings, slots := t.slots)
      && t.slots == s.slots[0 := s.slots[0].(status := Booked)]
  {
    LateFailurePrices();
  }

  lemma LateFailureFirstHalf()
    ensures var t := Run(LateFailureStart(), LateFailureRun()[..3]);
      && AsAtStart(t) && |t.bookings| == 1
      && t.bookings[0].slot == 0 && t.bookings[0].payment == Some(Payment(Stripe, PayPending, Unverified, false))
      && !Active(t.bookings[0])
  {
    LateFailurePrices();
    var s0, es := LateFailureStart(), LateFailureRun()[..3];
    LateFailureBooks(s0, 1);
    var s1 := Step(s0, es[0]);
    var s2 := Step(s1, es[1]);
    var s3 := Step(s2, es[2]);
    assert s3.slots == s0.slots;
    assert es[1..][1..] == [es[2]] && [es[2]][1..] == [];
    assert Run(s1, es[1..]) == Run(s2, [es[2]]) == Run(s3, []);
  }

  /** The notice for the cancelled booking 0 frees slot 0 under booking 1. */
  lemma LateFailureNotice(s: State)
    requires |s.bookings| == 2 && s.bookings[0].slot == 0 && Holds(s.bookings, 1, 0) && 0 in s.slots
    requires s.bookings[0].payment == Some(Payment(Stripe, PayPending, Unverified, false))
    ensures var t := Step(s, EWebhook(0, Failure, true));
      && t == s.(bookings := t.bookings, slots := s.slots[0 := s.slots[0].(status := Available)])
      && |t.bookings| == 2 && Holds(t.bookings, 1, 0)
  {
  }

  lemma LateFailureSecondHalf(s: State)
    requires AsAtStart(s) && |s.bookings| == 1 && s.bookings[0].slot == 0
    requires s.bookings[0].payment == Some(Payment(Stripe, PayPending, Unverified, false))
    ensures var t := Run(s, LateFailureRun()[3..]);
      Holds(t.bookings, 1, 0) && Holds(t.bookings, 2, 0)
  {
    var es := LateFailureRun()[3..];
    LateFailureBooks(s, 3);
    var s4 := Step(s, es[0]);
    assert s4.bookings[0] == s4.bookings[..1][0];
    LateFailureNotice(s4);
    var s5 := Step(s4, es[1]);
    assert s5.slots == s.slots;
    LateFailureBooks(s5, 4);
    var s6 := Step(s5, es[2]);
    assert s6.bookings[1] == s6.bookings[..2][1];
    assert es[1..][1..] == [es[2]] && [es[2]][1..] == [];
    assert Run(s4, es[1..]) == Run(s5, [es[2]]) == Run(s6, []);
  }

  /** The run's last state has two live bookings on slot 0. */
  lemma LateFailureDoubleBooks()
    ensures Init(LateFailureStart())
    ensures var t := Run(LateFailureStart(), LateFailureRun());
      Holds(t.bookings, 1, 0) && Holds(t.bookings, 2, 0)
  {
    hide Step;
    LateFailureFirstHalf();
    LateFailureSecondHalf(Run(LateFailureStart(), LateFailureRun()[..3]));
    RunSplits(LateFailureStart(), LateFailureRun(), 3);
  }

  // ---------- at most once ----------

  /** A step that takes money or attendance: it leaves the booking in `to`, coming from a higher rank. */
  predicate Reaches(s: State, e: Event, id: BookingId, to: Status) {
    id < |s.bookings| && s.bookings[id].status != to
    && id < |Step(s, e).bookings| && Step(s, e).bookings[id].status == to
  }

  function TimesReached(s: State, es: seq<Event>, id: BookingId, to: Status): nat
    decreases |es|
  {
    if es == [] then 0
    else (if Reaches(s, es[0], id, to) then 1 else 0) + TimesReached(Step(s, es[0]), es[1..], id, to)
  }

  /**
   Over any run whatsoever a booking is confirmed at most once, so platform and owner are credited at
   most once for it, and checked in at most once, by whichever route.
   */
  lemma {:induction false} ReachedAtMostOnce(s: State, es: seq<Event>, id: BookingId, to: Status)
    requires to == Confirmed || to == CheckedIn
    ensures TimesReached(s, es, id, to) <= 1
    ensures id < |s.bookings| && Rank(s.bookings[id].status) <= Rank(to) ==> TimesReached(s, es, id, to) == 0
    decreases |es|
  {
    if es != [] {
      ReachedAtMostOnce(Step(s, es[0]), es[1..], id, to);
      if id < |s.bookings| {
        RowsOnlyGrow(s, es[0], id);
        RankOnlyFalls(s.bookings[id], Step(s, es[0]).bookings[id], true);
      }
    }
  }

  /** Every successful check-in, by booking id or by QR scan, is such a step: of a confirmed booking, by its owner, on its day. */
  lemma CheckInReaches(s: State, e: Event)
    requires (e.ECheckIn? || e.EScanQr?) && Handle(s, e).Ok?
    ensures Reaches(s, e, e.id, CheckedIn)
    ensures var b := s.bookings[e.id];
      && b.status == Confirmed && b.owner == e.user
      && e.now - DAY < b.startsAt < e.now + DAY && b.startsAt / DAY == e.now / DAY
  {
    OnlyConfirmedChecksIn(s.bookings[e.id].status);
  }

  lemma OnlyConfirmedChecksIn(from: Status)
    ensures IsValidTransition(from, CheckedIn) <==> from == Confirmed
  {
  }

  /** How many check-ins of a booking succeed in a run, over both routes. */
  function CheckIns(s: State, es: seq<Event>, id: BookingId): nat
    decreases |es|
  {
    if es == [] then 0
    else
      (if (es[0].ECheckIn? || es[0].EScanQr?) && es[0].id == id && Handle(s, es[0]).Ok? then 1 else 0)
      + CheckIns(Step(s, es[0]), es[1..], id)
  }

  lemma {:induction false} CheckInsReach(s: State, es: seq<Event>, id: BookingId)
    ensures CheckIns(s, es, id) <= TimesReached(s, es, id, CheckedIn)
    decreases |es|
  {
    if es != [] {
      CheckInsReach(Step(s, es[0]), es[1..], id);
      if (es[0].ECheckIn? || es[0].EScanQr?) && Handle(s, es[0]).Ok? {
        CheckInReaches(s, es[0]);
      }
    }
  }

  /** In any run both check-in routes together succeed at most once for a booking. */
  lemma CheckedInAtMostOnce(s: State, es: seq<Event>, id: BookingId)
    ensures CheckIns(s, es, id) <= 1
  {
    CheckInsReach(s, es, id);
    ReachedAtMostOnce(s, es, id, CheckedIn);
  }

  /** An unpaid booking survives the cron job for fifteen minutes after its creation, and not a millisecond longer. */
  lemma UnpaidDeadline(s: State, user: UserId, x: SlotId, now: int, text: bool, later: int)
    requires CreateBooking(s, user, x, now, text).Ok?
    ensures var t := ExpireUnpaid(CreateBooking(s, user, x, now, text).value, later);
      && |t.bookings| == |s.bookings| + 1
      && t.bookings[|s.bookings|].status == if later > now + 15 * MINUTE then PaymentFailed else PendingPayment
  {
    ExpireUnpaidExact(CreateBooking(s, user, x, now, text).value, later);
  }

  // ---------- suspension ----------

  predicate SuspendedUntil(s: State, u: UserId, until: int) {
    u in s.users && s.users[u].suspendedUntil.Some? && s.users[u].suspendedUntil.value >= until && s.users[u].noShows >= 3
  }

  lemma ThirdNoShowSuspends(s: State, caller: UserId, id: BookingId, now: int)
    requires MarkNoShow(s, caller, id, now).Ok?
    ensures var t, player := MarkNoShow(s, caller, id, now).value, s.bookings[id].player;
      && player in s.users
      && (s.users[player].noShows >= 2 ==> SuspendedUntil(t, player, now + 30 * DAY))
  {
  }

  lemma {:induction false} JobsKeepUsers(s: State, ids: seq<BookingId>)
    ensures FailEach(s, ids).users == NoShowEach(s, ids).users == s.users
    decreases |ids|
  {
    if ids != [] {
      JobsKeepUsers(s, ids[..|ids| - 1]);
    }
  }

  lemma ConfirmKeepsUsers(s: State, id: BookingId, qr: bool)
    ensures ConfirmBooking(s, id, qr).Ok? ==> ConfirmBooking(s, id, qr).value.users == s.users
  {
    hide CreditWallet, CreditAccount;
  }

  lemma PaymentsKeepUsers(s: State, e: Event)
    requires e.EWebhook? || e.EApprove? || e.EWalletPay?
    ensures Step(s, e).users == s.users
  {
    hide ConfirmBooking, DebitWallet;
    if e.id < |s.bookings| && Handle(s, e).Ok? {
      var b := s.bookings[e.id];
      if e.EWalletPay? {
        var debit := DebitWallet(s.wallets, e.user, b.deposit as real, BookingPayment);
        var paid := Put(s, e.id, b.(payment := Some(Payment(WalletBalance, PayCompleted, Unverified, false))));
        if debit.Ok? {
          ConfirmKeepsUsers(paid.(wallets := debit.value), e.id, e.qrStored);
        }
      } else {
        ConfirmKeepsUsers(SetPayment(s, e.id, PayCompleted, if e.EApprove? then Approved else b.payment.value.verification),
                          e.id, e.qrStored);
      }
    }
  }

  lemma RefundKeepsUsers(s: State, b: Booking, q: Quote)
    ensures PayRefund(s, b, q).Ok? ==> PayRefund(s, b, q).value.users == s.users
  {
    hide CreditWallet, DebitWallet, DebitAccount;
  }

  lemma StatusesKeepUsers(s: State, e: Event)
    requires e.EMarkPaymentFailed? || e.ECancel? || e.ECheckIn? || e.EScanQr? || e.EComplete?
    ensures Step(s, e).users == s.users
  {
    if e.ECancel? && Handle(s, e).Ok? {
      CancelResult(s, e.user, e.id, e.now);
      RefundKeepsUsers(s, s.bookings[e.id], RefundQuote(s.bookings[e.id], e.user, e.now, s.settings));
    }
    hide CancelBooking, RefundQuote, PayRefund;
  }

  /** Only a no-show changes a user. */
  lemma UsersStep(s: State, e: Event)
    ensures e.ENoShow? || Step(s, e).users == s.users
  {
    hide CreditWallet, DebitWallet, CreditAccount, DebitAccount, PriceBooking, RefundQuote;
    hide ConfirmBooking, PayWithWallet, Webhook, ApprovePayment, CancelBooking, MarkPaymentFailed, CheckIn, ScanQr;
    if e.EExpireUnpaid? {
      JobsKeepUsers(s, Select(s.bookings, Overdue(e.now)));
    } else if e.EExpireNoShows? {
      JobsKeepUsers(s, Select(s.bookings, PastEnd(e.now)));
    } else if e.EWebhook? || e.EApprove? || e.EWalletPay? {
      PaymentsKeepUsers(s, e);
    } else if e.EMarkPaymentFailed? || e.ECancel? || e.ECheckIn? || e.EScanQr? || e.EComplete? {
      StatusesKeepUsers(s, e);
    }
  }

  lemma SuspensionStays(s: State, e: Event, u: UserId, until: int)
    requires SuspendedUntil(s, u, until) && (e.ENoShow? ==> e.now + 30 * DAY >= until)
    ensures SuspendedUntil(Step(s, e), u, until)
  {
    if e.ENoShow? {
      hide CreditWallet, UpdateStatus;
      assert MarkNoShow(s, e.user, e.id, e.now).Ok? ==>
        Step(s, e).users == s.users[s.bookings[e.id].player := CountNoShow(s.users[s.bookings[e.id].player], e.now)];
    } else {
      UsersStep(s, e);
    }
  }

  lemma {:induction false} SuspensionLasts(s: State, es: seq<Event>, u: UserId, until: int, i: nat)
    requires SuspendedUntil(s, u, until) && i <= |es|
    requires forall j :: 0 <= j < |es| && es[j].ENoShow? ==> es[j].now + 30 * DAY >= until
    ensures SuspendedUntil(Run(s, es[..i]), u, until)
    decreases i
  {
    if i > 0 {
      SuspensionStays(s, es[0], u, until);
      assert es[..i][0] == es[0] && es[..i][1..] == es[1..][..i - 1];
      SuspensionLasts(Step(s, es[0]), es[1..], u, until, i - 1);
    }
  }

  /** After a third no-show the player books nothing for thirty days, whatever else happens. */
  lemma {:induction false} ThirdNoShowStopsBooking(s: State, caller: UserId, id: BookingId, now: int, es: seq<Event>, i: nat)
    requires MarkNoShow(s, caller, id, now).Ok? && s.users[s.bookings[id].player].noShows >= 2
    requires forall j :: 0 <= j < |es| && es[j].ENoShow? ==> es[j].now >= now
    requires i < |es| && es[i].ECreate? && es[i].user == s.bookings[id].player && es[i].now < now + 30 * DAY
    ensures Handle(Run(MarkNoShow(s, caller, id, now).value, es[..i]), es[i]).Err?
  {
    ThirdNoShowSuspends(s, caller, id, now);
    SuspensionLasts(MarkNoShow(s, caller, id, now).value, es, s.bookings[id].player, now + 30 * DAY, i);
  }

  // ---------- webhooks ----------

  datatype Delivery = Delivery(notification: Notification, qrStored: bool)

  function Deliver(s: State, id: BookingId, ds: seq<Delivery>): State
    decreases |ds|
  {
    if ds == [] then s else Deliver(Step(s, EWebhook(id, ds[0].notification, ds[0].qrStored)), id, ds[1..])
  }

  predicate AwaitsPayment(s: State, id: BookingId) {
    && id < |s.bookings| && s.bookings[id].status == PendingPayment
    && s.bookings[id].payment.Some? && s.bookings[id].payment.value.status == PayPending
  }

  /** Confirmation goes through: there is a deposit to credit and, if the owner has a share, a wallet for it. */
  predicate CanConfirm(s: State, id: BookingId)
    requires id < |s.bookings|
  {
    var b := s.bookings[id];
    b.deposit > 0 && (b.deposit > b.commission ==> b.owner in s.wallets)
  }

  predicate Decides(s: State, id: BookingId, n: Notification)
    requires id < |s.bookings|
  {
    n == Failure || (n == Success && CanConfirm(s, id))
  }

  /** The deliveries up to and including the first one that decides. */
  function FirstDecisive(s: State, id: BookingId, ds: seq<Delivery>): seq<Delivery>
    requires id < |s.bookings|
  {
    if ds == [] then []
    else if Decides(s, id, ds[0].notification) then [ds[0]]
    else FirstDecisive(s, id, ds[1..])
  }

  lemma ConfirmSucceedsIff(s: State, id: BookingId, qr: bool)
    requires LedgersOk(s) && id < |s.bookings| && s.bookings[id].status == PendingPayment
    ensures ConfirmBooking(s, id, qr).Ok? <==> CanConfirm(s, id)
    ensures CanConfirm(s, id) ==>
      && id < |ConfirmBooking(s, id, qr).value.bookings|
      && ConfirmBooking(s, id, qr).value.bookings[id].status == Confirmed
      && ConfirmBooking(s, id, qr).value.bookings[id].payment == s.bookings[id].payment
  {
    var b := s.bookings[id];
    CreditKeeps(s.platform, b.deposit as real, BookingDeposit);
    CreditWalletKeeps(s.wallets, b.owner, (b.deposit - b.commission) as real, BookingPayment);
  }

  lemma LedgersStay(s: State, t: State)
    requires LedgersOk(s) && t.wallets == s.wallets && t.platform == s.platform
    ensures LedgersOk(t)
  {
  }

  /** A notice that decides settles payment and booking together; one that does not changes nothing. */
  lemma DeliveryEffect(s: State, id: BookingId, d: Delivery)
    requires LedgersOk(s) && AwaitsPayment(s, id)
    ensures var t := Step(s, EWebhook(id, d.notification, d.qrStored));
      if Decides(s, id, d.notification)
      then id < |t.bookings| && t.bookings[id].payment.Some? && t.bookings[id].payment.value.status != PayPending
           && t.bookings[id].status == (if d.notification == Success then Confirmed else PaymentFailed)
      else t == s
  {
    var p := s.bookings[id].payment.value;
    if d.notification == Success {
      hide ConfirmBooking, LedgersOk;
      LedgersStay(s, SetPayment(s, id, PayCompleted, p.verification));
      ConfirmSucceedsIff(SetPayment(s, id, PayCompleted, p.verification), id, d.qrStored);
    }
  }

  lemma {:induction false} SettledDeliveries(s: State, id: BookingId, ds: seq<Delivery>)
    requires id < |s.bookings| && s.bookings[id].payment.Some? && s.bookings[id].payment.value.status != PayPending
    ensures Deliver(s, id, ds) == s
    decreases |ds|
  {
    if ds != [] {
      SettledDeliveries(s, id, ds[1..]);
    }
  }

  /** Any list of notices has the effect of its first decisive one: repeats and stragglers change nothing. */
  lemma {:induction false} DeliveryIsIdempotent(s: State, id: BookingId, ds: seq<Delivery>)
    requires LedgersOk(s) && AwaitsPayment(s, id)
    ensures Deliver(s, id, ds) == Deliver(s, id, FirstDecisive(s, id, ds))
    decreases |ds|
  {
    if ds != [] {
      DeliveryEffect(s, id, ds[0]);
      var t := Step(s, EWebhook(id, ds[0].notification, ds[0].qrStored));
      if Decides(s, id, ds[0].notification) {
        SettledDeliveries(t, id, ds[1..]);
        assert [ds[0]][1..] == [];
      } else {
        DeliveryIsIdempotent(s, id, ds[1..]);
      }
    }
  }

  /** Once a payment is settled and its booking decided, every later notice is ignored, whatever happened in between. */
  lemma {:induction false} SettledForGood(s: State, es: seq<Event>, id: BookingId, d: Delivery)
    requires id < |s.bookings| && IsSettled(s.bookings[id])
    ensures var t := Run(s, es); Step(t, EWebhook(id, d.notification, d.qrStored)) == t
    decreases |es|
  {
    if es != [] {
      RowsOnlyGrow(s, es[0], id);
      SettledForGood(Step(s, es[0]), es[1..], id, d);
    }
  }

  // ---------- how far refunds drift ----------

  /** What all refunds together paid to players beyond what they took from platform and owners. */
  function RefundDrift(bs: seq<Booking>): int {
    if bs == [] then 0
    else
      var b := bs[|bs| - 1];
      RefundDrift(bs[..|bs| - 1])
      + if WasRefunded(b) then SplitGap(b.deposit, b.commission, b.refundPercent) else 0
  }

  function Refunds(bs: seq<Booking>): nat {
    if bs == [] then 0 else Refunds(bs[..|bs| - 1]) + if WasRefunded(bs[|bs| - 1]) then 1 else 0
  }

  /** At most one cent for each refunded booking, however long the run. */
  lemma {:induction false} DriftIsBounded(bs: seq<Booking>)
    requires forall i :: 0 <= i < |bs| ==> BookingOk(bs[i])
    ensures 0 <= RefundDrift(bs) + Refunds(bs) && RefundDrift(bs) <= Refunds(bs)
  {
    if bs != [] {
      var b := bs[|bs| - 1];
      assert BookingOk(b);
      SplitGapIsOneCent(b.deposit, b.commission, b.refundPercent);
      DriftIsBounded(bs[..|bs| - 1]);
    }
  }
}
