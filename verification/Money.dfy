/**
 Amounts of money. A stored amount is an `int` number of cents; an amount that has not been
 rounded yet (a percentage of a deposit) is a `real` number of cents.
 */
module Money {

  /** Decimal.toDecimalPlaces(2), and the rounding of a DECIMAL(10,2) column: half away from zero. */
  function HalfAway(x: real): int {
    if x >= 0.0 then (x + 0.5).Floor else -((0.5 - x).Floor)
  }

  /** JavaScript's Math.round: half towards plus infinity. */
  function MathRound(x: real): int {
    (x + 0.5).Floor
  }

  /** What a debit really takes from a whole-cent balance: half towards zero. */
  function HalfDown(x: real): int {
    -((0.5 - x).Floor)
  }

  /** The amount lies exactly between two whole cents. */
  predicate OnHalfCent(x: real) {
    x - 0.5 == (x - 0.5).Floor as real
  }

  function Share(cents: int, percent: real): real {
    cents as real * percent / 100.0
  }

  lemma HalfAwayIsNearest(x: real)
    requires x >= 0.0
    ensures x - 0.5 < HalfAway(x) as real <= x + 0.5
    ensures HalfAway(x) >= 0
  {
  }

  lemma HalfDownIsNearest(x: real)
    ensures x - 0.5 <= HalfDown(x) as real < x + 0.5
    ensures x > -0.5 ==> HalfDown(x) >= 0
  {
  }

  /** The two roundings differ on half cents only, and then by exactly one cent. */
  lemma RoundingGap(x: real)
    requires x >= 0.0
    ensures HalfAway(x) - HalfDown(x) == if OnHalfCent(x) then 1 else 0
  {
    var k := (x - 0.5).Floor;
    assert HalfAway(x) == k + 1 by {
      assert x + 0.5 == x - 0.5 + 1.0;
    }
    assert 0.5 - x == -(x - 0.5);
  }

  /** A credit moves a whole-cent balance by the amount rounded half away from zero. */
  lemma CreditMoves(balance: int, amount: real)
    requires balance >= 0 && amount >= 0.0
    ensures HalfAway(balance as real + amount) == balance + HalfAway(amount)
  {
  }

  /** A debit is refused exactly when the amount, rounded, exceeds the balance; otherwise it takes HalfDown. */
  lemma DebitMoves(balance: int, amount: real)
    requires balance >= 0 && amount > 0.0
    ensures HalfAway(balance as real - amount) < 0 <==> HalfAway(amount) > balance
    ensures HalfAway(amount) <= balance ==> HalfAway(balance as real - amount) == balance - HalfDown(amount)
  {
  }

  lemma WholeCents(n: int)
    ensures HalfAway(n as real) == n && HalfDown(n as real) == n && MathRound(n as real) == n
    ensures !OnHalfCent(n as real)
  {
  }

  lemma RoundingMonotone(x: real, y: real)
    requires x <= y
    ensures HalfAway(x) <= HalfAway(y) && HalfDown(x) <= HalfDown(y) && MathRound(x) <= MathRound(y)
  {
  }

  /** A percentage between 0 and 100 takes a part of the amount, and nothing of it exactly when one factor is zero. */
  lemma ShareBounds(cents: int, percent: real)
    requires cents >= 0 && 0.0 <= percent <= 100.0
    ensures 0.0 <= Share(cents, percent) <= cents as real
    ensures Share(cents, percent) == 0.0 <==> cents == 0 || percent == 0.0
  {
    var c := cents as real;
    assert c * percent >= 0.0;
    assert c * percent <= c * 100.0;
    if cents > 0 && percent > 0.0 {
      assert c * percent > 0.0;
    }
  }

  lemma ShareMonotone(cents: int, low: real, high: real)
    requires cents >= 0 && low <= high
    ensures Share(cents, low) <= Share(cents, high)
  {
  }

  lemma ShareAdds(part: int, rest: int, percent: real)
    ensures Share(part, percent) + Share(rest, percent) == Share(part + rest, percent)
  {
  }
}
