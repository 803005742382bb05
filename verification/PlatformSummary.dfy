/** How far the admin's summary of the platform wallet can be off after a run of the whole system. */
module PlatformSummary {
  import opened Money
  import opened Ledger
  import opened BookingStatus
  import opened BookingModel
  import opened BookingInvariants
  import opened BookingSteps
  import opened Solvency

  /** Only a confirmed booking is refunded, so every refund row has a deposit row of its own. */
  lemma {:induction false} RefundsHaveDeposits(bs: seq<Booking>)
    requires forall i :: 0 <= i < |bs| ==> BookingOk(bs[i])
    ensures 0 <= Total(RefundRows, bs) <= Total(DepositRows, bs)
  {
    if bs != [] {
      var b := bs[|bs| - 1];
      assert BookingOk(b);
      assert |b.history| > 2 ==> Continues(b.history, 2) || b.history[2] == LATE_FAILURE;
      RefundsHaveDeposits(bs[..|bs| - 1]);
    }
  }

  /** An accepted platform withdrawal of an amount on a half cent. */
  predicate IsHalfWithdrawal(s: State, e: Event) {
    e.EPlatformWithdraw? && Handle(s, e).Ok? && OnHalfCent(e.amount)
  }

  lemma WithdrawalRow(a: Account, amount: real)
    requires WellKept(a) && DebitAccount(a, amount, AdminWithdrawal).Ok?
    ensures HalfRowsOf(DebitAccount(a, amount, AdminWithdrawal).value.rows, AdminWithdrawal)
         == HalfRowsOf(a.rows, AdminWithdrawal) + if OnHalfCent(amount) then 1 else 0
  {
    DebitRow(a, amount, AdminWithdrawal);
    hide DebitAccount, HalfAway, HalfDown;
    var b := DebitAccount(a, amount, AdminWithdrawal).value;
    assert b.rows[..|b.rows| - 1] == a.rows;
  }

  /** No other event writes a half-cent withdrawal row. */
  lemma HalfWithdrawalStep(s: State, e: Event)
    requires LedgersOk(s)
    ensures HalfRowsOf(Step(s, e).platform.rows, AdminWithdrawal)
         == HalfRowsOf(s.platform.rows, AdminWithdrawal) + if IsHalfWithdrawal(s, e) then 1 else 0
  {
    if e.EPlatformWithdraw? {
      if Handle(s, e).Ok? {
        WithdrawalRow(s.platform, e.amount);
      }
    } else if Handle(s, e).Ok? {
      var other := if e.EMoveWallet? || e.EWalletPay? then e.user + 1 else 0;
      StepKeepsOutside(s, e, other);
    }
  }

  function HalfWithdrawals(s: State, es: seq<Event>): nat
    decreases |es|
  {
    if es == [] then 0 else (if IsHalfWithdrawal(s, es[0]) then 1 else 0) + HalfWithdrawals(Step(s, es[0]), es[1..])
  }

  lemma {:induction false} HalfWithdrawalRun(s: State, es: seq<Event>)
    requires Accounted(s)
    ensures HalfRowsOf(Run(s, es).platform.rows, AdminWithdrawal)
         == HalfRowsOf(s.platform.rows, AdminWithdrawal) + HalfWithdrawals(s, es)
    decreases |es|
  {
    hide Accounted, Step, HalfRowsOf, IsHalfWithdrawal;
    if es != [] {
      AccountsHoldLedgers(s);
      HalfWithdrawalStep(s, es[0]);
      StepKeepsAccounts(s, es[0]);
      HalfWithdrawalRun(Step(s, es[0]), es[1..]);
    }
  }

  /**
   After any run from a fresh system: netFlow falls short of the balance by the half-cent refund rows and
   the half-cent withdrawals; deposit and refund rows are those of the bookings confirmed and refunded,
   never more refunds than deposits. So without half-cent withdrawals the gap stays within half a cent per row.
   */
  lemma SummaryOfRun(s: State, es: seq<Event>)
    requires Init(s)
    ensures var t := Run(s, es);
      var rows := t.platform.rows;
      var gap := t.platform.balance - NetFlow(rows);
      && gap == HalfRowsOf(rows, BookingRefund) + HalfWithdrawals(s, es)
      && HalfRowsOf(rows, BookingRefund) <= CountKind(rows, BookingRefund) <= CountKind(rows, BookingDeposit)
      && CountKind(rows, BookingRefund) == Total(RefundRows, t.bookings)
      && CountKind(rows, BookingDeposit) == Total(DepositRows, t.bookings)
      && 2 * gap <= |rows| + 2 * HalfWithdrawals(s, es)
  {
    InitOk(s);
    RunKeepsAccounts(s, es);
    HalfWithdrawalRun(s, es);
    var t := Run(s, es);
    ReplayGap(t.platform);
    NetFlowIsReplay(t.platform.rows);
    PlatformRowsByKind(t.platform.rows);
    RefundsHaveDeposits(t.bookings);
  }
}
