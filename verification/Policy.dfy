/** Pricing of a new booking and the cancellation refund, both pure computations. */
module Policy {
  import opened Wrappers
  import opened Money

  /** `global_commission_rate` and `deposit_percentage` are absent until an admin stores them. */
  datatype Settings = Settings(depositPercent: Option<real>, globalRate: Option<real>, refunds: RefundPolicy)

  datatype RefundPolicy = RefundPolicy(
    thresholdMaxH: real, thresholdMinH: real, refundMax: real, refundMin: real, refundZero: real)

  const DEFAULT_REFUNDS := RefundPolicy(3.0, 0.0, 100.0, 0.0, 0.0)

  predicate IsPercent(p: real) {
    0.0 <= p <= 100.0
  }

  /** The ranges the settings are meant to lie in. */
  predicate SettingsInRange(s: Settings) {
    && (s.globalRate.Some? ==> s.globalRate.value >= 0.0)
    && IsPercent(s.refunds.refundMax) && IsPercent(s.refunds.refundMin) && IsPercent(s.refunds.refundZero)
  }

  // ---------- pricing ----------

  datatype Price = Price(deposit: int, commission: int, ownerRevenue: int)

  function DepositPercent(s: Settings): real {
    if s.depositPercent.Some? then s.depositPercent.value else 100.0
  }

  function CommissionRate(fieldRate: Option<real>, s: Settings): real {
    if fieldRate.Some? then fieldRate.value
    else if s.globalRate.Some? then s.globalRate.value
    else 10.0
  }

  function PriceBooking(total: int, fieldRate: Option<real>, s: Settings): Result<Price> {
    var percent := DepositPercent(s);
    var rate := CommissionRate(fieldRate, s);
    if percent > 100.0 || percent < 0.0 || percent < rate then Err(BadRequest)
    else
      var deposit := HalfAway(Share(total, percent));
      var commission := HalfAway(Share(total, rate));
      var revenue := deposit - commission;
      Ok(Price(deposit, commission, if revenue < 0 then 0 else revenue))
  }

  /** `cents` is `exact` rounded to the nearest cent, upwards from a half. */
  predicate IsRounded(cents: int, exact: real) {
    exact - 0.5 < cents as real <= exact + 0.5
  }

  /**
   For every price and rate the parts are the nearest cents and fit together: the clamp of the owner's
   revenue is never what makes it non-negative.
   */
  lemma PriceFits(total: int, fieldRate: Option<real>, s: Settings)
    requires total >= 0 && PriceBooking(total, fieldRate, s).Ok?
    ensures var p := PriceBooking(total, fieldRate, s).value;
      && p.deposit == p.commission + p.ownerRevenue
      && p.commission <= p.deposit <= total
      && IsRounded(p.deposit, Share(total, DepositPercent(s)))
      && (CommissionRate(fieldRate, s) >= 0.0 ==> IsRounded(p.commission, Share(total, CommissionRate(fieldRate, s))))
      && (CommissionRate(fieldRate, s) >= 0.0 ==> 0 <= p.commission)
      && (total > 0 && DepositPercent(s) == 100.0 ==> p.deposit == total)
  {
    var percent, rate := DepositPercent(s), CommissionRate(fieldRate, s);
    ShareBounds(total, percent);
    HalfAwayIsNearest(Share(total, percent));
    ShareMonotone(total, rate, percent);
    RoundingMonotone(Share(total, rate), Share(total, percent));
    RoundingMonotone(Share(total, percent), total as real);
    WholeCents(total);
    if rate >= 0.0 {
      ShareBounds(total, rate);
      HalfAwayIsNearest(Share(total, rate));
    }
    FullShare(total);
  }

  lemma FullShare(cents: int)
    ensures Share(cents, 100.0) == cents as real
  {
  }

  // ---------- refunds ----------

  datatype Quote = Quote(percent: real, refund: int)

  const MS_PER_HOUR := 3_600_000.0

  function RefundPercent(untilMs: int, p: RefundPolicy): real {
    var hours := untilMs as real / MS_PER_HOUR;
    if hours > p.thresholdMaxH then p.refundMax
    else if hours > p.thresholdMinH then p.refundMin
    else p.refundZero
  }

  /** calculateRefund, for a player who cancels `untilMs` before the booking starts. */
  function PlayerRefund(deposit: int, untilMs: int, p: RefundPolicy): Quote {
    var percent := RefundPercent(untilMs, p);
    Quote(percent, MathRound(Share(deposit, percent)))
  }

  function OwnerRefund(deposit: int): Quote {
    Quote(100.0, MathRound(deposit as real))
  }

  /** Every refund lies between nothing and the deposit, and an owner's cancellation returns all of it. */
  lemma RefundBounds(deposit: int, percent: real)
    requires deposit >= 0 && IsPercent(percent)
    ensures 0 <= MathRound(Share(deposit, percent)) <= deposit
    ensures OwnerRefund(deposit).refund == deposit == MathRound(Share(deposit, 100.0))
  {
    ShareBounds(deposit, percent);
    RoundingMonotone(0.0, Share(deposit, percent));
    RoundingMonotone(Share(deposit, percent), deposit as real);
    WholeCents(deposit);
    WholeCents(0);
    FullShare(deposit);
  }

  /** Under an ordered policy, cancelling earlier never returns less. */
  lemma EarlierIsNoWorse(deposit: int, late: int, early: int, p: RefundPolicy)
    requires deposit >= 0 && late <= early
    requires p.refundZero <= p.refundMin <= p.refundMax && p.thresholdMinH <= p.thresholdMaxH
    ensures PlayerRefund(deposit, late, p).refund <= PlayerRefund(deposit, early, p).refund
  {
  }

  /** The documented three-hour rule is exactly what the default policy does, to the millisecond. */
  lemma ThreeHourRule(deposit: int, untilMs: int)
    requires deposit > 0
    ensures PlayerRefund(deposit, untilMs, DEFAULT_REFUNDS).refund == if untilMs > 3 * 3_600_000 then deposit else 0
  {
  }

  /** What the player's wallet gains and what the platform's and the owner's wallets lose, as their balances really move. */
  function PlayerGain(deposit: int, percent: real): int {
    MathRound(Share(deposit, percent))
  }

  function PlatformLoss(commission: int, percent: real): int {
    HalfDown(Share(commission, percent))
  }

  function OwnerLoss(deposit: int, commission: int, percent: real): int {
    HalfDown(Share(deposit - commission, percent))
  }

  function SplitGap(deposit: int, commission: int, percent: real): int {
    PlayerGain(deposit, percent) - PlatformLoss(commission, percent) - OwnerLoss(deposit, commission, percent)
  }

  /** A refund creates or destroys at most one cent, and none at 100 percent. */
  lemma SplitGapIsOneCent(deposit: int, commission: int, percent: real)
    requires 0 <= commission <= deposit && IsPercent(percent)
    ensures -1 <= SplitGap(deposit, commission, percent) <= 1
    ensures percent == 100.0 ==> SplitGap(deposit, commission, percent) == 0
    ensures 0 <= PlatformLoss(commission, percent) <= commission
    ensures 0 <= OwnerLoss(deposit, commission, percent) <= deposit - commission
  {
    var x, y := Share(commission, percent), Share(deposit - commission, percent);
    ShareAdds(commission, deposit - commission, percent);
    ShareBounds(commission, percent);
    ShareBounds(deposit - commission, percent);
    HalfDownIsNearest(x);
    HalfDownIsNearest(y);
    WholeCents(commission);
    WholeCents(deposit - commission);
    WholeCents(deposit);
    RoundingMonotone(x, commission as real);
    RoundingMonotone(y, (deposit - commission) as real);
    FullShare(commission);
    FullShare(deposit - commission);
    FullShare(deposit);
    var gain := MathRound(x + y);
    assert x + y - 0.5 < gain as real <= x + y + 0.5;
  }

  /** One cent is reached in both directions. */
  lemma SplitGapIsTight()
    ensures SplitGap(2, 1, 50.0) == 1 && SplitGap(2, 1, 70.0) == -1
  {
    assert Share(2, 50.0) == 1.0 && Share(1, 50.0) == 0.5;
    assert Share(2, 70.0) == 1.4 && Share(1, 70.0) == 0.7;
    assert MathRound(1.0) == 1 && HalfDown(0.5) == 0;
    assert MathRound(1.4) == 1 && HalfDown(0.7) == 1;
  }
}
