/**
 One running balance with its append-only ledger: a user's Wallet with its WalletTransaction rows,
 or the single PlatformWallet with its PlatformWalletTransaction rows.
 */
module Ledger {
  import opened Wrappers
  import opened Money

  /** The first three are PlatformTransactionType values, the others WalletTransactionType values. */
  datatype Kind =
    | BookingDeposit | BookingRefund | AdminWithdrawal
    | BookingPayment | Refund | Compensation
    | Payout | Withdrawal | Restored

  datatype Side = Credit | Debit

  /** `amount` is the DECIMAL(10,2) column, so the raw amount rounded half away from zero. */
  datatype Row = Row(kind: Kind, side: Side, amount: int, before: int, after: int)

  datatype Account = Account(balance: int, rows: seq<Row>)

  const EMPTY_ACCOUNT := Account(0, [])

  function CreditAccount(a: Account, amount: real, kind: Kind): Result<Account> {
    if amount <= 0.0 then Err(AmountNotPositive)
    else
      var after := HalfAway(a.balance as real + amount);
      Ok(Account(after, a.rows + [Row(kind, Credit, HalfAway(amount), a.balance, after)]))
  }

  function DebitAccount(a: Account, amount: real, kind: Kind): Result<Account> {
    if amount <= 0.0 then Err(AmountNotPositive)
    else
      var after := HalfAway(a.balance as real - amount);
      if after < 0 then Err(InsufficientBalance)
      else Ok(Account(after, a.rows + [Row(kind, Debit, HalfAway(amount), a.balance, after)]))
  }

  // ---------- what a ledger says about its balance ----------

  ghost predicate RowKept(r: Row) {
    && 0 <= r.before && 0 <= r.after && 0 <= r.amount
    && (r.side == Credit ==> r.after == r.before + r.amount)
    && (r.side == Debit ==> r.before - r.after == r.amount || r.before - r.after == r.amount - 1)
  }

  /** The balance the first n rows lead to. */
  function BalanceAt(rows: seq<Row>, n: nat): int
    requires n <= |rows|
  {
    if n == 0 then 0 else rows[n - 1].after
  }

  ghost predicate RowAt(rows: seq<Row>, i: nat)
    requires i < |rows|
  {
    RowKept(rows[i]) && rows[i].before == BalanceAt(rows, i)
  }

  /** The rows chain from a zero balance to the current one, and no balance on the way is negative. */
  ghost predicate WellKept(a: Account) {
    && 0 <= a.balance
    && (forall i :: 0 <= i < |a.rows| ==> RowAt(a.rows, i))
    && a.balance == BalanceAt(a.rows, |a.rows|)
  }

  /** The balance an auditor gets by adding the recorded amounts. */
  function Replay(rows: seq<Row>): int {
    if rows == [] then 0
    else
      var r := rows[|rows| - 1];
      Replay(rows[..|rows| - 1]) + if r.side == Credit then r.amount else -r.amount
  }

  /** A debit that recorded one cent more than it took. */
  predicate IsHalfRow(r: Row) {
    r.side == Debit && r.before - r.after == r.amount - 1
  }

  function HalfRows(rows: seq<Row>): nat {
    if rows == [] then 0 else HalfRows(rows[..|rows| - 1]) + if IsHalfRow(rows[|rows| - 1]) then 1 else 0
  }

  function HalfRowsOf(rows: seq<Row>, kind: Kind): nat {
    if rows == [] then 0
    else
      var r := rows[|rows| - 1];
      HalfRowsOf(rows[..|rows| - 1], kind) + if r.kind == kind && IsHalfRow(r) then 1 else 0
  }

  function SumKind(rows: seq<Row>, kind: Kind): int {
    if rows == [] then 0
    else
      var r := rows[|rows| - 1];
      SumKind(rows[..|rows| - 1], kind) + if r.kind == kind then r.amount else 0
  }

  function CountKind(rows: seq<Row>, kind: Kind): nat {
    if rows == [] then 0
    else CountKind(rows[..|rows| - 1], kind) + if rows[|rows| - 1].kind == kind then 1 else 0
  }

  /** getPlatformWalletSummary: deposits minus refunds minus withdrawals. */
  function NetFlow(rows: seq<Row>): int {
    SumKind(rows, BookingDeposit) - SumKind(rows, BookingRefund) - SumKind(rows, AdminWithdrawal)
  }

  /** Money moved by payouts and withdrawals, as opposed to money moved by bookings. */
  predicate IsOutside(kind: Kind) {
    kind.AdminWithdrawal? || kind.Payout? || kind.Withdrawal? || kind.Restored?
  }

  function Outside(rows: seq<Row>): int {
    if rows == [] then 0
    else
      var r := rows[|rows| - 1];
      Outside(rows[..|rows| - 1]) + if IsOutside(r.kind) then r.after - r.before else 0
  }

  /** `b` is `a` after one entry of this kind that changed the balance by `delta`. */
  ghost predicate Moved(a: Account, b: Account, delta: int, kind: Kind) {
    && b.balance == a.balance + delta
    && Outside(b.rows) == Outside(a.rows) + (if IsOutside(kind) then delta else 0)
    && (forall k :: CountKind(b.rows, k) == CountKind(a.rows, k) + if k == kind then 1 else 0)
    && WellKept(b)
  }

  /** Appending one kept row that starts at the balance keeps the ledger, and adds that row to every sum. */
  lemma RowAppended(a: Account, r: Row)
    requires WellKept(a) && RowKept(r) && r.before == a.balance
    ensures Moved(a, Account(r.after, a.rows + [r]), r.after - r.before, r.kind)
    ensures Replay(a.rows + [r]) == Replay(a.rows) + (if r.side == Credit then r.amount else -r.amount)
    ensures HalfRows(a.rows + [r])
         == HalfRows(a.rows) + (if IsHalfRow(r) then 1 else 0)
  {
    var rows := a.rows + [r];
    assert rows[..|rows| - 1] == a.rows;
    forall i | 0 <= i < |rows|
      ensures RowAt(rows, i)
    {
      if i < |a.rows| {
        assert RowAt(a.rows, i);
      }
    }
  }

  lemma CreditRow(a: Account, amount: real, kind: Kind)
    requires a.balance >= 0 && amount > 0.0
    ensures HalfAway(amount) >= 0
    ensures var k := HalfAway(amount);
      CreditAccount(a, amount, kind)
      == Ok(Account(a.balance + k, a.rows + [Row(kind, Credit, k, a.balance, a.balance + k)]))
  {
  }

  lemma DebitRow(a: Account, amount: real, kind: Kind)
    requires a.balance >= 0 && amount > 0.0
    ensures 0 <= HalfDown(amount) && HalfAway(amount) == HalfDown(amount) + if OnHalfCent(amount) then 1 else 0
    ensures var k, taken := HalfAway(amount), HalfDown(amount);
      DebitAccount(a, amount, kind)
      == if k > a.balance then Err(InsufficientBalance)
         else Ok(Account(a.balance - taken, a.rows + [Row(kind, Debit, k, a.balance, a.balance - taken)]))
  {
    DebitMoves(a.balance, amount);
    RoundingGap(amount);
    HalfDownIsNearest(amount);
  }

  /** wallet.credit succeeds for exactly the positive amounts and moves the balance by the recorded amount. */
  lemma CreditKeeps(a: Account, amount: real, kind: Kind)
    requires WellKept(a)
    ensures CreditAccount(a, amount, kind).Ok? <==> amount > 0.0
    ensures amount > 0.0 ==>
      var b := CreditAccount(a, amount, kind).value;
      && Moved(a, b, HalfAway(amount), kind)
      && Replay(b.rows) == Replay(a.rows) + HalfAway(amount)
      && HalfRows(b.rows) == HalfRows(a.rows)
  {
    if amount > 0.0 {
      CreditRow(a, amount, kind);
      var k := HalfAway(amount);
      RowAppended(a, Row(kind, Credit, k, a.balance, a.balance + k));
    }
  }

  /** wallet.debit is refused exactly for a non-positive amount or one whose rounding exceeds the balance. */
  lemma DebitKeeps(a: Account, amount: real, kind: Kind)
    requires WellKept(a)
    ensures DebitAccount(a, amount, kind).Ok? <==> 0.0 < amount && HalfAway(amount) <= a.balance
    ensures DebitAccount(a, amount, kind).Ok? ==>
      var b := DebitAccount(a, amount, kind).value;
      && Moved(a, b, -HalfDown(amount), kind)
      && Replay(b.rows) == Replay(a.rows) - HalfAway(amount)
      && HalfRows(b.rows) == HalfRows(a.rows) + (if OnHalfCent(amount) then 1 else 0)
  {
    if amount > 0.0 {
      DebitRow(a, amount, kind);
      var k, taken := HalfAway(amount), HalfDown(amount);
      if k <= a.balance {
        RowAppended(a, Row(kind, Debit, k, a.balance, a.balance - taken));
      }
    }
  }

  /** What an auditor can read off any kept ledger: replaying it misses the balance by its half-cent debits. */
  lemma {:induction false} ReplayGap(a: Account)
    requires WellKept(a)
    ensures a.balance == Replay(a.rows) + HalfRows(a.rows)
    decreases |a.rows|
  {
    if a.rows != [] {
      var n := |a.rows| - 1;
      assert RowAt(a.rows, n);
      var shorter := Account(BalanceAt(a.rows, n), a.rows[..n]);
      forall i | 0 <= i < n
        ensures RowAt(shorter.rows, i)
      {
        assert RowAt(a.rows, i);
      }
      assert shorter.balance >= 0 by {
        assert a.rows[n].before == shorter.balance;
      }
      ReplayGap(shorter);
    }
  }

  // ---------- whole runs ----------

  datatype Entry = Entry(side: Side, kind: Kind, amount: real)

  function Attempt(a: Account, e: Entry): Result<Account> {
    if e.side == Credit then CreditAccount(a, e.amount, e.kind) else DebitAccount(a, e.amount, e.kind)
  }

  /** A refused entry leaves the account as it was. */
  function Apply(a: Account, e: Entry): Account {
    var out := Attempt(a, e);
    if out.Ok? then out.value else a
  }

  function ApplyAll(a: Account, es: seq<Entry>): Account
    decreases |es|
  {
    if es == [] then a else ApplyAll(Apply(a, es[0]), es[1..])
  }

  /** The debits of a run that were accepted and whose amount lay on a half cent. */
  function HalfDebits(a: Account, es: seq<Entry>): nat
    decreases |es|
  {
    if es == [] then 0
    else
      (if Attempt(a, es[0]).Ok? && es[0].side == Debit && OnHalfCent(es[0].amount) then 1 else 0)
      + HalfDebits(Apply(a, es[0]), es[1..])
  }

  lemma {:induction false} RunKeeps(a: Account, es: seq<Entry>)
    requires WellKept(a)
    ensures WellKept(ApplyAll(a, es))
    ensures ApplyAll(a, es).balance - Replay(ApplyAll(a, es).rows)
            == a.balance - Replay(a.rows) + HalfDebits(a, es)
    decreases |es|
  {
    if es != [] {
      CreditKeeps(a, es[0].amount, es[0].kind);
      DebitKeeps(a, es[0].amount, es[0].kind);
      if Attempt(a, es[0]).Ok? && es[0].side == Debit {
        RoundingGap(es[0].amount);
      }
      RunKeeps(Apply(a, es[0]), es[1..]);
    }
  }

  /**
   Every ledger reachable from an empty one is well kept, and replaying its recorded amounts misses
   the balance by exactly one cent for each accepted half-cent debit, never by anything else.
   */
  lemma LedgerReplay(es: seq<Entry>)
    ensures var a := ApplyAll(EMPTY_ACCOUNT, es);
      WellKept(a) && a.balance == Replay(a.rows) + HalfDebits(EMPTY_ACCOUNT, es)
  {
    RunKeeps(EMPTY_ACCOUNT, es);
  }

  ghost predicate PlatformKind(side: Side, kind: Kind) {
    (side == Credit && kind == BookingDeposit) || (side == Debit && (kind == BookingRefund || kind == AdminWithdrawal))
  }

  ghost predicate PlatformRows(rows: seq<Row>) {
    forall i :: 0 <= i < |rows| ==> PlatformKind(rows[i].side, rows[i].kind)
  }

  lemma {:induction false} NetFlowIsReplay(rows: seq<Row>)
    requires PlatformRows(rows)
    ensures NetFlow(rows) == Replay(rows)
  {
    if rows != [] {
      assert PlatformKind(rows[|rows| - 1].side, rows[|rows| - 1].kind);
      NetFlowIsReplay(rows[..|rows| - 1]);
    }
  }

  /** The platform's rows are deposits, refunds and withdrawals, and only the latter two can be half-cent rows. */
  lemma {:induction false} PlatformRowsByKind(rows: seq<Row>)
    requires PlatformRows(rows)
    ensures |rows| == CountKind(rows, BookingDeposit) + CountKind(rows, BookingRefund) + CountKind(rows, AdminWithdrawal)
    ensures HalfRows(rows) == HalfRowsOf(rows, BookingRefund) + HalfRowsOf(rows, AdminWithdrawal)
    ensures HalfRowsOf(rows, BookingRefund) <= CountKind(rows, BookingRefund)
  {
    if rows != [] {
      assert PlatformKind(rows[|rows| - 1].side, rows[|rows| - 1].kind);
      PlatformRowsByKind(rows[..|rows| - 1]);
    }
  }

  lemma {:induction false} PlatformRunRows(a: Account, es: seq<Entry>)
    requires PlatformRows(a.rows)
    requires forall i :: 0 <= i < |es| ==> PlatformKind(es[i].side, es[i].kind)
    ensures PlatformRows(ApplyAll(a, es).rows)
    decreases |es|
  {
    if es != [] {
      PlatformRunRows(Apply(a, es[0]), es[1..]);
    }
  }

  /**
   The admin summary's netFlow falls short of the platform balance by one cent for every accepted
   half-cent debit; so the two agree if and only if there was none.
   */
  lemma {:induction false} SummaryNetFlow(es: seq<Entry>)
    requires forall i :: 0 <= i < |es| ==> PlatformKind(es[i].side, es[i].kind)
    ensures var a := ApplyAll(EMPTY_ACCOUNT, es);
      && a.balance - NetFlow(a.rows) == HalfDebits(EMPTY_ACCOUNT, es)
      && (NetFlow(a.rows) == a.balance <==> HalfDebits(EMPTY_ACCOUNT, es) == 0)
  {
    LedgerReplay(es);
    PlatformRunRows(EMPTY_ACCOUNT, es);
    NetFlowIsReplay(ApplyAll(EMPTY_ACCOUNT, es).rows);
  }

  /** Whole-cent amounts never leave a gap. */
  lemma {:induction false} WholeCentRun(a: Account, es: seq<Entry>, cents: seq<int>)
    requires |cents| == |es| && forall i :: 0 <= i < |es| ==> es[i].amount == cents[i] as real
    ensures HalfDebits(a, es) == 0
    decreases |es|
  {
    if es != [] {
      WholeCents(cents[0]);
      WholeCentRun(Apply(a, es[0]), es[1..], cents[1..]);
    }
  }

  // ---------- half a cent per row ----------

  /** The entries of a run that were accepted, so the rows it writes. */
  function Accepted(a: Account, es: seq<Entry>): nat
    decreases |es|
  {
    if es == [] then 0 else (if Attempt(a, es[0]).Ok? then 1 else 0) + Accepted(Apply(a, es[0]), es[1..])
  }

  lemma {:induction false} RowPerAccepted(a: Account, es: seq<Entry>)
    ensures |ApplyAll(a, es).rows| == |a.rows| + Accepted(a, es)
    decreases |es|
  {
    if es != [] {
      RowPerAccepted(Apply(a, es[0]), es[1..]);
    }
  }

  /**
   The gap stays within half a cent per row if and only if at most every second accepted entry is a
   half-cent debit, for any wallet's replay and, by the same condition, for the platform's netFlow.
   */
  lemma HalfCentPerRowIff(es: seq<Entry>)
    ensures var a := ApplyAll(EMPTY_ACCOUNT, es);
      var fits := 2 * HalfDebits(EMPTY_ACCOUNT, es) <= Accepted(EMPTY_ACCOUNT, es);
      && |a.rows| == Accepted(EMPTY_ACCOUNT, es)
      && (2 * (a.balance - Replay(a.rows)) <= |a.rows| <==> fits)
      && ((forall i :: 0 <= i < |es| ==> PlatformKind(es[i].side, es[i].kind)) ==>
            (2 * (a.balance - NetFlow(a.rows)) <= |a.rows| <==> fits))
  {
    LedgerReplay(es);
    RowPerAccepted(EMPTY_ACCOUNT, es);
    if forall i :: 0 <= i < |es| ==> PlatformKind(es[i].side, es[i].kind) {
      SummaryNetFlow(es);
    }
  }

  const HALF_WITHDRAWAL := Entry(Debit, AdminWithdrawal, 1.5)

  lemma HalfWithdrawalTakesOne(a: Account)
    requires a.balance >= 2
    ensures Apply(a, HALF_WITHDRAWAL) == Account(a.balance - 1, a.rows + [Row(AdminWithdrawal, Debit, 2, a.balance, a.balance - 1)])
    ensures forall es :: HalfDebits(a, [HALF_WITHDRAWAL] + es) == 1 + HalfDebits(Apply(a, HALF_WITHDRAWAL), es)
  {
    assert HalfAway(1.5) == 2 && HalfDown(1.5) == 1 && OnHalfCent(1.5);
    DebitRow(a, 1.5, AdminWithdrawal);
    hide DebitAccount;
    forall es
      ensures HalfDebits(a, [HALF_WITHDRAWAL] + es) == 1 + HalfDebits(Apply(a, HALF_WITHDRAWAL), es)
    {
      assert ([HALF_WITHDRAWAL] + es)[1..] == es;
    }
  }

  /** Two withdrawals of one and a half cents from four break that bound: three rows, and a gap of two cents. */
  lemma HalfCentPerRowFails()
    ensures var a := ApplyAll(EMPTY_ACCOUNT, [Entry(Credit, BookingDeposit, 4.0), HALF_WITHDRAWAL, HALF_WITHDRAWAL]);
      |a.rows| == 3 && a.balance == 2 && NetFlow(a.rows) == 0
  {
    var es := [Entry(Credit, BookingDeposit, 4.0), HALF_WITHDRAWAL, HALF_WITHDRAWAL];
    CreditRow(EMPTY_ACCOUNT, 4.0, BookingDeposit);
    WholeCents(4);
    var a := Apply(EMPTY_ACCOUNT, es[0]);
    assert a == Account(4, [Row(BookingDeposit, Credit, 4, 0, 4)]);
    HalfWithdrawalTakesOne(a);
    var b := Apply(a, HALF_WITHDRAWAL);
    HalfWithdrawalTakesOne(b);
    var c := Apply(b, HALF_WITHDRAWAL);
    assert es[1..] == [HALF_WITHDRAWAL] + [HALF_WITHDRAWAL] && [HALF_WITHDRAWAL] == [HALF_WITHDRAWAL] + [];
    assert es[1..][1..] == [HALF_WITHDRAWAL] && [HALF_WITHDRAWAL][1..] == [];
    hide Apply, Attempt;
    assert ApplyAll(EMPTY_ACCOUNT, es) == ApplyAll(a, es[1..]) == ApplyAll(b, [HALF_WITHDRAWAL]) == ApplyAll(c, []);
    SummaryNetFlow(es);
    assert HalfDebits(EMPTY_ACCOUNT, es) == HalfDebits(a, es[1..]) == 1 + HalfDebits(b, [HALF_WITHDRAWAL]) == 2 + HalfDebits(c, []);
  }

  /** The gap is real: a deposit of one cent and a refund of half a cent leave netFlow at zero and one cent in the wallet. */
  lemma NetFlowCanDrift()
    ensures var a := ApplyAll(EMPTY_ACCOUNT, [Entry(Credit, BookingDeposit, 1.0), Entry(Debit, BookingRefund, 0.5)]);
      a.balance == 1 && NetFlow(a.rows) == 0
  {
    var es := [Entry(Credit, BookingDeposit, 1.0), Entry(Debit, BookingRefund, 0.5)];
    assert es[1..] == [Entry(Debit, BookingRefund, 0.5)];
    assert es[1..][1..] == [];
    var a := Apply(EMPTY_ACCOUNT, es[0]);
    assert a == Account(1, [Row(BookingDeposit, Credit, 1, 0, 1)]);
    var b := Apply(a, es[1]);
    assert b == Account(1, [Row(BookingDeposit, Credit, 1, 0, 1), Row(BookingRefund, Debit, 1, 1, 1)]);
    assert b == ApplyAll(EMPTY_ACCOUNT, es);
    SummaryNetFlow(es);
    assert OnHalfCent(0.5);
    assert HalfDebits(a, es[1..]) == 1;
  }
}
