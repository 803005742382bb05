/** The booking state machine and the status history it leaves behind. */
module BookingStatus {
  import opened Wrappers

  datatype Status =
    | PendingPayment | Confirmed | CheckedIn | Completed
    | Cancelled | CancelledRefunded | CancelledNoRefund
    | NoShow | PaymentFailed | Played | ExpiredNoShow

  /** One BookingStatusHistory row. */
  datatype Change = Change(from: Option<Status>, to: Status)

  function NextStatuses(s: Status): set<Status> {
    match s
    case PendingPayment => {Confirmed, PaymentFailed, Cancelled, CancelledRefunded, CancelledNoRefund}
    case Confirmed => {CheckedIn, Cancelled, NoShow, CancelledRefunded, CancelledNoRefund, Played, ExpiredNoShow}
    case CheckedIn => {Completed, Played}
    case _ => {}
  }

  predicate IsValidTransition(from: Status, to: Status) {
    to in NextStatuses(from)
  }

  predicate IsTerminal(s: Status) {
    NextStatuses(s) == {}
  }

  function Rank(s: Status): nat {
    match s
    case PendingPayment => 3
    case Confirmed => 2
    case CheckedIn => 1
    case _ => 0
  }

  /** Row i continues the history: it starts where the row before ended, by an allowed transition. */
  ghost predicate Continues(h: seq<Change>, i: nat)
    requires i < |h|
  {
    if i == 0 then h[0] == Change(None, PendingPayment)
    else h[i].from == Some(h[i - 1].to) && IsValidTransition(h[i - 1].to, h[i].to)
  }

  /** The history is a path of the state machine from creation to `status`. */
  ghost predicate IsPath(h: seq<Change>, status: Status) {
    && |h| > 0
    && (forall i :: 0 <= i < |h| ==> Continues(h, i))
    && h[|h| - 1].to == status
  }

  /** The table read by column: where each status may be entered from. */
  lemma EnteredFrom(from: Status, to: Status)
    ensures IsValidTransition(from, to) <==>
      match to
      case PendingPayment => false
      case Confirmed => from == PendingPayment
      case PaymentFailed => from == PendingPayment
      case Cancelled => from == PendingPayment || from == Confirmed
      case CancelledRefunded => from == PendingPayment || from == Confirmed
      case CancelledNoRefund => from == PendingPayment || from == Confirmed
      case CheckedIn => from == Confirmed
      case NoShow => from == Confirmed
      case ExpiredNoShow => from == Confirmed
      case Completed => from == CheckedIn
      case Played => from == Confirmed || from == CheckedIn
  {
  }

  lemma TransitionLowersRank(from: Status, to: Status)
    requires IsValidTransition(from, to)
    ensures Rank(to) < Rank(from)
    ensures IsTerminal(from) <==> Rank(from) == 0
  {
  }

  /** Along a path the rank falls with every row, so no status occurs twice and nothing follows a terminal one. */
  lemma {:induction false} RankFalls(h: seq<Change>, status: Status, i: nat, j: nat)
    requires IsPath(h, status)
    requires i < j < |h|
    ensures Rank(h[j].to) <= Rank(h[i].to) - (j - i)
  {
    assert Continues(h, j);
    TransitionLowersRank(h[j - 1].to, h[j].to);
    if i < j - 1 {
      RankFalls(h, status, i, j - 1);
    }
  }

  /** A booking's history has at most four rows, each status in it occurs once, and a terminal status is its last row. */
  lemma HistoryIsShort(h: seq<Change>, status: Status)
    requires IsPath(h, status)
    ensures |h| <= 4
    ensures forall i, j :: 0 <= i < j < |h| ==> h[i].to != h[j].to
    ensures forall i :: 0 <= i < |h| && IsTerminal(h[i].to) ==> i == |h| - 1
  {
    assert Continues(h, 0);
    if |h| > 1 {
      RankFalls(h, status, 0, |h| - 1);
    }
    forall i, j | 0 <= i < j < |h|
      ensures h[i].to != h[j].to
    {
      RankFalls(h, status, i, j);
    }
    forall i | 0 <= i < |h| && IsTerminal(h[i].to)
      ensures i == |h| - 1
    {
      assert i + 1 < |h| ==> Continues(h, i + 1);
    }
  }

  lemma ConfirmedRow(h: seq<Change>, status: Status, i: nat)
    requires IsPath(h, status) && i < |h| && h[i].to == Confirmed
    ensures i == 1
  {
    assert Continues(h, 0);
    if i > 0 {
      RankFalls(h, status, 0, i);
    }
  }

  /** A booking was confirmed at some time exactly when its second history row says so. */
  lemma ConfirmedIsSecond(h: seq<Change>, status: Status)
    requires IsPath(h, status)
    ensures (exists i :: 0 <= i < |h| && h[i].to == Confirmed) <==> |h| > 1 && h[1].to == Confirmed
  {
    assert Continues(h, 0);
    forall i | 0 <= i < |h| && h[i].to == Confirmed
      ensures i == 1
    {
      ConfirmedRow(h, status, i);
    }
  }

  /** Recording an allowed transition keeps the history a path; a row that names the wrong origin breaks it. */
  lemma ChangeKeepsPath(h: seq<Change>, status: Status, from: Status, to: Status)
    requires IsPath(h, status)
    ensures IsPath(h + [Change(Some(from), to)], to) <==> from == status && IsValidTransition(status, to)
  {
    var g := h + [Change(Some(from), to)];
    if from == status && IsValidTransition(status, to) {
      forall i | 0 <= i < |g|
        ensures Continues(g, i)
      {
        if i < |h| {
          assert Continues(h, i);
        }
      }
    } else {
      assert IsPath(g, to) ==> Continues(g, |h|);
    }
  }

  // ---------- histories with late failures ----------

  /** What the failure writers record, whatever the status was. */
  const LATE_FAILURE := Change(Some(PendingPayment), PaymentFailed)

  /** The history as it can really look: each row continues it or is a failure writer's. */
  ghost predicate IsTrace(h: seq<Change>, status: Status) {
    && |h| > 0 && h[0] == Change(None, PendingPayment) && h[|h| - 1].to == status
    && (forall i :: 0 < i < |h| ==> Continues(h, i) || h[i] == LATE_FAILURE)
  }

  /** Recording an allowed transition or a late failure keeps the history a trace. */
  lemma ChangeKeepsTrace(h: seq<Change>, status: Status, c: Change)
    requires IsTrace(h, status)
    requires c == LATE_FAILURE || (c.from == Some(status) && IsValidTransition(status, c.to))
    ensures IsTrace(h + [c], c.to)
  {
    var g := h + [c];
    forall i | 0 < i < |g|
      ensures Continues(g, i) || g[i] == LATE_FAILURE
    {
      if i < |h| {
        assert Continues(h, i) || h[i] == LATE_FAILURE;
      }
    }
  }

  lemma TraceEnds(h: seq<Change>, status: Status)
    requires IsTrace(h, status)
    ensures status == PendingPayment <==> |h| == 1
    ensures status == Confirmed ==> |h| == 2
  {
    var n := |h| - 1;
    assert n > 0 ==> Continues(h, n) || h[n] == LATE_FAILURE;
    assert n > 1 ==> Continues(h, n - 1) || h[n - 1] == LATE_FAILURE;
  }

  /** A trace that is no path has failed for good. */
  lemma {:induction false} TraceIsPathOrFailed(h: seq<Change>, status: Status)
    requires IsTrace(h, status)
    ensures IsPath(h, status) || status == PaymentFailed
    decreases |h|
  {
    var n := |h| - 1;
    assert n == 0 ==> Continues(h, 0);
    if n > 0 && h[n] != LATE_FAILURE {
      assert Continues(h, n);
      var g, before := h[..n], h[n - 1].to;
      forall i | 0 < i < n
        ensures Continues(g, i) || g[i] == LATE_FAILURE
      {
        assert Continues(h, i) || h[i] == LATE_FAILURE;
      }
      TraceIsPathOrFailed(g, before);
      assert h == g + [Change(Some(before), status)];
      if IsPath(g, before) {
        ChangeKeepsPath(g, before, before, status);
      }
    }
  }
}
