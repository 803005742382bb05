/** Owner withdrawals: a request holds the money at once, an admin approves it or rejects it and restores the money. */
module Withdrawals {
  import opened Wrappers
  import opened Money
  import opened Ledger

  type UserId = nat
  /** Requests are never deleted, so a request's id is its position in the table. */
  type RequestId = nat

  datatype RequestStatus = Pending | Approved | Rejected

  /** `amount` is the stored DECIMAL(10,2) column. */
  datatype Request = Request(owner: UserId, amount: int, status: RequestStatus)

  datatype Desk = Desk(fieldOwners: set<UserId>, wallets: map<UserId, Account>, requests: seq<Request>)

  // ---------- the operations ----------

  function CreateRequest(d: Desk, owner: UserId, amount: real): Result<Desk> {
    if amount <= 0.0 then Err(AmountNotPositive)
    else if owner !in d.wallets then Err(NotFound)
    else if d.wallets[owner].balance as real < amount then Err(InsufficientBalance)
    else if owner !in d.fieldOwners then Err(BadRequest)
    else
      var hold := DebitAccount(d.wallets[owner], amount, Withdrawal);
      if hold.Err? then Err(hold.error)
      else Ok(d.(wallets := d.wallets[owner := hold.value],
                 requests := d.requests + [Request(owner, HalfAway(amount), Pending)]))
  }

  function Approve(d: Desk, id: RequestId): Result<Desk> {
    if id >= |d.requests| then Err(NotFound)
    else match d.requests[id].status
      case Approved => Ok(d)
      case Rejected => Err(BadRequest)
      case Pending => Ok(d.(requests := d.requests[id := d.requests[id].(status := Approved)]))
  }

  /** The restoring credit does not go through wallet.credit, so it takes an amount of zero as well. */
  function Restore(a: Account, amount: int): Account {
    var after := HalfAway(a.balance as real + amount as real);
    Account(after, a.rows + [Row(Restored, Credit, amount, a.balance, after)])
  }

  function Reject(d: Desk, id: RequestId): Result<Desk> {
    if id >= |d.requests| then Err(NotFound)
    else
      var r := d.requests[id];
      match r.status
      case Rejected => Ok(d)
      case Approved => Err(BadRequest)
      case Pending =>
        if r.owner !in d.wallets then Err(NotFound)
        else Ok(d.(wallets := d.wallets[r.owner := Restore(d.wallets[r.owner], r.amount)],
                   requests := d.requests[id := r.(status := Rejected)]))
  }

  /** Any other credit or debit of a wallet. */
  function Ordinary(d: Desk, u: UserId, e: Entry): Result<Desk> {
    if u !in d.wallets then Err(NotFound)
    else
      var out := Attempt(d.wallets[u], e);
      if out.Err? then Err(out.error) else Ok(d.(wallets := d.wallets[u := out.value]))
  }

  datatype Event =
    | ECreate(owner: UserId, amount: real)
    | EApprove(id: RequestId)
    | EReject(id: RequestId)
    | EOrdinary(user: UserId, entry: Entry)

  function Handle(d: Desk, e: Event): Result<Desk> {
    match e
    case ECreate(owner, amount) => CreateRequest(d, owner, amount)
    case EApprove(id) => Approve(d, id)
    case EReject(id) => Reject(d, id)
    case EOrdinary(u, entry) => Ordinary(d, u, entry)
  }

  function Step(d: Desk, e: Event): Desk {
    var out := Handle(d, e);
    if out.Ok? then out.value else d
  }

  function Run(d: Desk, es: seq<Event>): Desk
    decreases |es|
  {
    if es == [] then d else Run(Step(d, es[0]), es[1..])
  }

  // ---------- what is conserved ----------

  ghost predicate Valid(d: Desk) {
    && (forall u :: u in d.wallets ==> WellKept(d.wallets[u]))
    && (forall i :: 0 <= i < |d.requests| ==> d.requests[i].amount >= 0)
  }

  function Held(rs: seq<Request>, u: UserId): int {
    if rs == [] then 0
    else
      var r := rs[|rs| - 1];
      Held(rs[..|rs| - 1], u) + if r.owner == u && r.status != Rejected then r.amount else 0
  }

  /** An owner's balance together with everything held for or paid out on the owner's requests. */
  function Worth(d: Desk, u: UserId): int
    requires u in d.wallets
  {
    d.wallets[u].balance + Held(d.requests, u)
  }

  /** What an ordinary entry adds to u's worth. */
  function OrdinaryDelta(d: Desk, e: Event, u: UserId): int {
    if e.EOrdinary? && e.user == u && Handle(d, e).Ok? then
      if e.entry.side == Credit then HalfAway(e.entry.amount) else -HalfDown(e.entry.amount)
    else 0
  }

  /** A granted request of u over an amount on a half cent: it records a cent more than it takes. */
  function HalfHold(d: Desk, e: Event, u: UserId): int {
    if e.ECreate? && e.owner == u && Handle(d, e).Ok? && OnHalfCent(e.amount) then 1 else 0
  }

  lemma HeldAppend(rs: seq<Request>, r: Request, u: UserId)
    ensures Held(rs + [r], u) == Held(rs, u) + if r.owner == u && r.status != Rejected then r.amount else 0
  {
  }

  lemma {:induction false} HeldUpdate(rs: seq<Request>, id: nat, status: RequestStatus, u: UserId)
    requires id < |rs| && rs[id].status == Pending
    ensures Held(rs[id := rs[id].(status := status)], u)
         == Held(rs, u) - if rs[id].owner == u && status == Rejected then rs[id].amount else 0
  {
    var n := |rs| - 1;
    var ts := rs[id := rs[id].(status := status)];
    if id == n {
      assert ts[..n] == rs[..n];
    } else {
      assert ts[..n] == rs[..n][id := rs[..n][id].(status := status)];
      HeldUpdate(rs[..n], id, status, u);
    }
  }

  lemma RestoreKeeps(a: Account, amount: int)
    requires WellKept(a) && amount >= 0
    ensures WellKept(Restore(a, amount)) && Restore(a, amount).balance == a.balance + amount
  {
    WholeCents(a.balance + amount);
    assert a.balance as real + amount as real == (a.balance + amount) as real;
    RowAppended(a, Row(Restored, Credit, amount, a.balance, a.balance + amount));
  }

  lemma CreateEffect(d: Desk, owner: UserId, amount: real, u: UserId)
    requires Valid(d) && u in d.wallets && CreateRequest(d, owner, amount).Ok?
    ensures var t := CreateRequest(d, owner, amount).value;
      && Valid(t) && t.wallets.Keys == d.wallets.Keys
      && Worth(t, u) == Worth(d, u) + HalfHold(d, ECreate(owner, amount), u)
  {
    hide WellKept;
    var t := CreateRequest(d, owner, amount).value;
    DebitKeeps(d.wallets[owner], amount, Withdrawal);
    RoundingGap(amount);
    HalfAwayIsNearest(amount);
    HeldAppend(d.requests, t.requests[|d.requests|], u);
  }

  lemma RejectEffect(d: Desk, id: RequestId, u: UserId)
    requires Valid(d) && u in d.wallets && Reject(d, id).Ok?
    ensures var t := Reject(d, id).value;
      Valid(t) && t.wallets.Keys == d.wallets.Keys && Worth(t, u) == Worth(d, u)
  {
    hide WellKept, Restore;
    if d.requests[id].status == Pending {
      RestoreKeeps(d.wallets[d.requests[id].owner], d.requests[id].amount);
      HeldUpdate(d.requests, id, Rejected, u);
    }
  }

  lemma OrdinaryEffect(d: Desk, v: UserId, e: Entry, u: UserId)
    requires Valid(d) && u in d.wallets && Ordinary(d, v, e).Ok?
    ensures var t := Ordinary(d, v, e).value;
      && Valid(t) && t.wallets.Keys == d.wallets.Keys
      && Worth(t, u) == Worth(d, u) + OrdinaryDelta(d, EOrdinary(v, e), u)
  {
    hide WellKept;
    CreditKeeps(d.wallets[v], e.amount, e.kind);
    DebitKeeps(d.wallets[v], e.amount, e.kind);
  }

  /** Requests, approvals and rejections leave an owner's worth alone, but for the cent a half-cent request adds. */
  lemma WorthStep(d: Desk, e: Event, u: UserId)
    requires Valid(d) && u in d.wallets
    ensures Valid(Step(d, e)) && Step(d, e).wallets.Keys == d.wallets.Keys
    ensures Worth(Step(d, e), u) == Worth(d, u) + OrdinaryDelta(d, e, u) + HalfHold(d, e, u)
  {
    hide WellKept, Restore, DebitAccount, CreditAccount;
    if Handle(d, e).Ok? {
      match e
      case ECreate(owner, amount) => CreateEffect(d, owner, amount, u);
      case EReject(id) => RejectEffect(d, id, u);
      case EOrdinary(v, entry) => OrdinaryEffect(d, v, entry, u);
      case EApprove(id) =>
        if d.requests[id].status == Pending {
          HeldUpdate(d.requests, id, Approved, u);
        }
    }
  }

  function OrdinaryTotal(d: Desk, es: seq<Event>, u: UserId): int
    decreases |es|
  {
    if es == [] then 0 else OrdinaryDelta(d, es[0], u) + OrdinaryTotal(Step(d, es[0]), es[1..], u)
  }

  function HalfHolds(d: Desk, es: seq<Event>, u: UserId): nat
    decreases |es|
  {
    if es == [] then 0 else HalfHold(d, es[0], u) + HalfHolds(Step(d, es[0]), es[1..], u)
  }

  lemma {:induction false} WorthOfRun(d: Desk, es: seq<Event>, u: UserId)
    requires Valid(d) && u in d.wallets
    ensures Valid(Run(d, es)) && u in Run(d, es).wallets
    ensures Worth(Run(d, es), u) == Worth(d, u) + OrdinaryTotal(d, es, u) + HalfHolds(d, es, u)
    decreases |es|
  {
    if es != [] {
      WorthStep(d, es[0], u);
      WorthOfRun(Step(d, es[0]), es[1..], u);
    }
  }

  /** Holds conserve money over a run if and only if no granted request was over a half-cent amount. */
  lemma ConservationIff(d: Desk, es: seq<Event>, u: UserId)
    requires Valid(d) && u in d.wallets
    ensures Valid(Run(d, es)) && u in Run(d, es).wallets
    ensures Worth(Run(d, es), u) == Worth(d, u) + OrdinaryTotal(d, es, u) <==> HalfHolds(d, es, u) == 0
  {
    WorthOfRun(d, es, u);
  }

  /** A rejected request over half a cent returns one cent although it took none. */
  lemma HalfCentGains()
    ensures var d := Desk({7}, map[7 := Account(100, [Row(Compensation, Credit, 100, 0, 100)])], []);
      7 in Run(d, [ECreate(7, 0.5), EReject(0)]).wallets
      && Run(d, [ECreate(7, 0.5), EReject(0)]).wallets[7].balance == 101
  {
  }

  // ---------- what each operation does ----------

  /** A request is granted exactly to a field owner whose balance covers it, and holds the money at once. */
  lemma CreateOutcome(d: Desk, owner: UserId, amount: real)
    requires Valid(d)
    ensures CreateRequest(d, owner, amount).Ok? <==>
      amount > 0.0 && owner in d.wallets && d.wallets[owner].balance as real >= amount && owner in d.fieldOwners
    ensures CreateRequest(d, owner, amount).Ok? ==>
      var t, w := CreateRequest(d, owner, amount).value, d.wallets[owner];
      && |t.requests| == |d.requests| + 1 && owner in t.wallets
      && var r, after := t.requests[|d.requests|], t.wallets[owner].balance;
      && amount - 0.5 < r.amount as real <= amount + 0.5
      && amount - 0.5 <= (w.balance - after) as real < amount + 0.5
      && t == Desk(d.fieldOwners,
                   d.wallets[owner := Account(after, w.rows + [Row(Withdrawal, Debit, r.amount, w.balance, after)])],
                   d.requests + [Request(owner, r.amount, Pending)])
  {
    if amount > 0.0 && owner in d.wallets {
      var balance := d.wallets[owner].balance;
      DebitRow(d.wallets[owner], amount, Withdrawal);
      HalfAwayIsNearest(amount);
      HalfDownIsNearest(amount);
      if balance as real >= amount {
        WholeCents(balance);
        RoundingMonotone(amount, balance as real);
      }
    }
    hide HalfAway, HalfDown, OnHalfCent, DebitAccount;
  }

  /** An approval approves, and writes nothing else; it is refused exactly for a missing or rejected request. */
  lemma ApproveOutcome(d: Desk, id: RequestId)
    ensures Handle(d, EApprove(id)).Ok? <==> id < |d.requests| && d.requests[id].status != Rejected
    ensures Handle(d, EApprove(id)).Ok? ==>
      Handle(d, EApprove(id)).value
      == d.(requests := d.requests[id := Request(d.requests[id].owner, d.requests[id].amount, Approved)])
  {
  }

  /** A rejection rejects, and gives the held amount back if it was still held. */
  lemma RejectOutcome(d: Desk, id: RequestId)
    ensures Handle(d, EReject(id)).Ok? <==>
      && id < |d.requests| && d.requests[id].status != Approved
      && (d.requests[id].status == Pending ==> d.requests[id].owner in d.wallets)
    ensures Handle(d, EReject(id)).Ok? ==>
      var t, r := Handle(d, EReject(id)).value, d.requests[id];
      && t == d.(requests := d.requests[id := Request(r.owner, r.amount, Rejected)], wallets := t.wallets)
      && t.wallets == if r.status == Pending then
                        var w := d.wallets[r.owner];
                        d.wallets[r.owner := Account(w.balance + r.amount,
                                                     w.rows + [Row(Restored, Credit, r.amount, w.balance, w.balance + r.amount)])]
                      else d.wallets
  {
    if id < |d.requests| && d.requests[id].status == Pending && d.requests[id].owner in d.wallets {
      var r, w := d.requests[id], d.wallets[d.requests[id].owner];
      WholeCents(w.balance + r.amount);
      assert w.balance as real + r.amount as real == (w.balance + r.amount) as real;
    }
    hide HalfAway;
  }

  // ---------- approval and rejection ----------

  /** Repeating an approval or a rejection changes nothing. */
  lemma ReviewIsIdempotent(d: Desk, e: Event)
    requires e.EApprove? || e.EReject?
    ensures Step(Step(d, e), e) == Step(d, e)
  {
  }

  /** A reviewed request keeps its outcome for ever: it is never restored again, and never both approved and rejected. */
  lemma {:induction false} OutcomeIsFinal(d: Desk, es: seq<Event>, id: RequestId)
    requires id < |d.requests| && d.requests[id].status != Pending
    ensures id < |Run(d, es).requests| && Run(d, es).requests[id] == d.requests[id]
    decreases |es|
  {
    if es != [] {
      OutcomeIsFinal(Step(d, es[0]), es[1..], id);
    }
  }

  predicate Restores(d: Desk, e: Event, id: RequestId) {
    e == EReject(id) && id < |d.requests| && d.requests[id].status == Pending && Handle(d, e).Ok?
  }

  function TimesRestored(d: Desk, es: seq<Event>, id: RequestId): nat
    decreases |es|
  {
    if es == [] then 0
    else (if Restores(d, es[0], id) then 1 else 0) + TimesRestored(Step(d, es[0]), es[1..], id)
  }

  /** In any run a request's money is restored at most once, and not at all once it was approved. */
  lemma {:induction false} RestoredAtMostOnce(d: Desk, es: seq<Event>, id: RequestId)
    ensures TimesRestored(d, es, id) <= 1
    ensures id < |d.requests| && d.requests[id].status != Pending ==> TimesRestored(d, es, id) == 0
    decreases |es|
  {
    if es != [] {
      RestoredAtMostOnce(Step(d, es[0]), es[1..], id);
    }
  }

  /** After a successful approval every later rejection in any run is refused, and nothing is restored. */
  lemma ApprovedIsNeverRestored(d: Desk, es: seq<Event>, id: RequestId, i: nat)
    requires Handle(d, EApprove(id)).Ok? && i <= |es|
    ensures var t := Run(Step(d, EApprove(id)), es[..i]);
      && id < |t.requests| && t.requests[id].status == Approved
      && (i < |es| && es[i] == EReject(id) ==> Handle(t, es[i]).Err?)
    ensures TimesRestored(Step(d, EApprove(id)), es, id) == 0
  {
    ApproveOutcome(d, id);
    OutcomeIsFinal(Step(d, EApprove(id)), es[..i], id);
    RestoredAtMostOnce(Step(d, EApprove(id)), es, id);
  }

  /** After a successful rejection every later approval in any run is refused, and nothing is restored again. */
  lemma RejectedIsNeverApproved(d: Desk, es: seq<Event>, id: RequestId, i: nat)
    requires Handle(d, EReject(id)).Ok? && i <= |es|
    ensures var t := Run(Step(d, EReject(id)), es[..i]);
      && id < |t.requests| && t.requests[id].status == Rejected
      && (i < |es| && es[i] == EApprove(id) ==> Handle(t, es[i]).Err?)
    ensures TimesRestored(Step(d, EReject(id)), es, id) == 0
  {
    RejectOutcome(d, id);
    OutcomeIsFinal(Step(d, EReject(id)), es[..i], id);
    RestoredAtMostOnce(Step(d, EReject(id)), es, id);
  }

  // ---------- the service ----------

  class WithdrawalDesk {
    const fieldOwners: set<UserId>
    var wallets: map<UserId, Account>
    var requests: seq<Request>

    constructor (fieldOwners: set<UserId>, wallets: map<UserId, Account>)
      ensures State() == Desk(fieldOwners, wallets, [])
    {
      this.fieldOwners, this.wallets, this.requests := fieldOwners, wallets, [];
    }

    function State(): Desk
      reads this
    {
      Desk(fieldOwners, wallets, requests)
    }

    method CreateWithdrawalRequest(owner: UserId, amount: real) returns (r: Result<()>)
      modifies this
      ensures State() == Step(old(State()), ECreate(owner, amount))
      ensures r.Ok? <==> Handle(old(State()), ECreate(owner, amount)).Ok?
    {
      if amount <= 0.0 {
        return Err(AmountNotPositive);
      }
      if owner !in wallets {
        return Err(NotFound);
      }
      if wallets[owner].balance as real < amount {
        return Err(InsufficientBalance);
      }
      if owner !in fieldOwners {
        return Err(BadRequest);
      }
      var before := wallets[owner].balance;
      var after := HalfAway(before as real - amount);
      if after < 0 {
        return Err(InsufficientBalance);
      }
      var row := Row(Withdrawal, Debit, HalfAway(amount), before, after);
      wallets := wallets[owner := Account(after, wallets[owner].rows + [row])];
      requests := requests + [Request(owner, HalfAway(amount), Pending)];
      return Ok(());
    }

    method ApproveWithdrawalRequest(id: RequestId) returns (r: Result<()>)
      modifies this`requests
      ensures State() == Step(old(State()), EApprove(id))
      ensures r.Ok? <==> Handle(old(State()), EApprove(id)).Ok?
    {
      if id >= |requests| {
        return Err(NotFound);
      }
      if requests[id].status == Approved {
        return Ok(());
      }
      if requests[id].status != Pending {
        return Err(BadRequest);
      }
      requests := requests[id := requests[id].(status := Approved)];
      return Ok(());
    }

    method RejectWithdrawalRequest(id: RequestId) returns (r: Result<()>)
      modifies this
      ensures State() == Step(old(State()), EReject(id))
      ensures r.Ok? <==> Handle(old(State()), EReject(id)).Ok?
    {
      if id >= |requests| {
        return Err(NotFound);
      }
      var request := requests[id];
      if request.status == Rejected {
        return Ok(());
      }
      if request.status != Pending {
        return Err(BadRequest);
      }
      if request.owner !in wallets {
        return Err(NotFound);
      }
      var wallet := wallets[request.owner];
      var after := HalfAway(wallet.balance as real + request.amount as real);
      var row := Row(Restored, Credit, request.amount, wallet.balance, after);
      wallets := wallets[request.owner := Account(after, wallet.rows + [row])];
      requests := requests[id := request.(status := Rejected)];
      return Ok(());
    }
  }
}
