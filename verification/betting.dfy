/** The arithmetic of one bet: its size, whether it won, the balance it leaves and the observed move. */
module Betting {
  import opened Wrappers

  /** Smallest and largest fraction of the balance that is ever bet. */
  const MinBet: real := 0.03
  const MaxBet: real := 0.10

  /** Fixed leverage applied to the directional move. */
  const Leverage: real := 20.0

  function Min(a: real, b: real): real { if a <= b then a else b }

  function Max(a: real, b: real): real { if a >= b then a else b }

  /** The fraction of the balance bet for a model probability: the probability mapped linearly
      onto [MinBet, MaxBet], then clamped into that band. */
  function BetPercentage(probability: real): (bp: real)
    ensures MinBet <= bp <= MaxBet
    ensures 0.0 <= probability <= 1.0 ==> bp - MinBet == probability * (MaxBet - MinBet)
    ensures probability <= 0.0 ==> bp == MinBet
    ensures probability >= 1.0 ==> bp == MaxBet
  {
    var raw := MinBet + probability * (MaxBet - MinBet);
    Max(MinBet, Min(raw, MaxBet))
  }

  /** A more confident model never bets less. */
  lemma BetPercentageMonotone(p: real, q: real)
    requires p <= q
    ensures BetPercentage(p) <= BetPercentage(q)
  {
  }

  /** Within [0, 1] the bet size determines the probability it was sized from. */
  lemma BetPercentageInverse(p: real)
    requires 0.0 <= p <= 1.0
    ensures (BetPercentage(p) - MinBet) / (MaxBet - MinBet) == p
  {
  }

  /** The end points of the probability range give the end points of the band. */
  lemma BetPercentageEndpoints()
    ensures BetPercentage(0.0) == MinBet
    ensures BetPercentage(1.0) == MaxBet
  {
  }

  /** The sign of a real number as -1, 0 or 1. */
  function Sign(x: real): int {
    if x > 0.0 then 1 else if x < 0.0 then -1 else 0
  }

  /** The direction of a prediction as +1 (up) or -1 (down). */
  function Direction(predictedUp: bool): int {
    if predictedUp then 1 else -1
  }

  /** A prediction is right when the price moved strictly in the predicted direction. */
  function PredictionCorrect(predictedUp: bool, change: real): (ok: bool)
    ensures ok <==> Sign(change) == Direction(predictedUp)
    ensures change == 0.0 ==> !ok
  {
    (predictedUp && change > 0.0) || (!predictedUp && change < 0.0)
  }

  /** The balance after a bet of `betPercentage` of `balance` in the predicted direction, with the
      move `change` (a fraction of the old price) multiplied by the leverage. */
  function UpdateBalance(balance: real, betPercentage: real, predictedUp: bool, change: real): (b: real)
    ensures b == balance * (1.0 + Leverage * betPercentage * change * Direction(predictedUp) as real)
    ensures change == 0.0 ==> b == balance
  {
    var betAmount := balance * betPercentage;
    var profitOrLoss := betAmount * change * (if predictedUp then 1.0 else -1.0) * Leverage;
    balance + profitOrLoss
  }

  /** Betting down on a move is betting up on the opposite move. */
  lemma UpdateBalanceSymmetric(balance: real, betPercentage: real, change: real)
    ensures UpdateBalance(balance, betPercentage, false, change)
         == UpdateBalance(balance, betPercentage, true, -change)
  {
  }

  /** Product of three positives is positive. */
  lemma ProductPositive(a: real, b: real, c: real)
    requires a > 0.0 && b > 0.0 && c > 0.0
    ensures a * b * c > 0.0
  {
    assert a * b > 0.0;
  }

  /** With a positive balance and stake, the balance grows exactly when the prediction was right,
      stays put exactly when the price did not move, and shrinks otherwise. */
  lemma BalanceRisesIffCorrect(balance: real, betPercentage: real, predictedUp: bool, change: real)
    requires balance > 0.0 && betPercentage > 0.0
    ensures UpdateBalance(balance, betPercentage, predictedUp, change) > balance
        <==> PredictionCorrect(predictedUp, change)
    ensures UpdateBalance(balance, betPercentage, predictedUp, change) == balance <==> change == 0.0
    ensures UpdateBalance(balance, betPercentage, predictedUp, change) < balance
        <==> !PredictionCorrect(predictedUp, change) && change != 0.0
  {
    var d := Direction(predictedUp) as real;
    var s := change * d;
    var delta := balance * betPercentage * Leverage * s;
    assert UpdateBalance(balance, betPercentage, predictedUp, change) == balance + delta;
    if s > 0.0 {
      ProductPositive(balance * betPercentage, Leverage, s);
    } else if s < 0.0 {
      ProductPositive(balance * betPercentage, Leverage, -s);
    }
    assert PredictionCorrect(predictedUp, change) <==> s > 0.0;
  }

  /** The change in balance is at most the size of the balance times the largest stake times the
      leverage times the size of the move; this holds for negative balances too, which the session
      keeps trading on. */
  lemma BalanceChangeBounded(balance: real, betPercentage: real, predictedUp: bool, change: real)
    requires MinBet <= betPercentage <= MaxBet
    ensures var b := UpdateBalance(balance, betPercentage, predictedUp, change);
      var a := if balance >= 0.0 then balance else -balance;
      var m := if change >= 0.0 then change else -change;
      -(a * MaxBet * Leverage * m) <= b - balance <= a * MaxBet * Leverage * m
  {
    var a := if balance >= 0.0 then balance else -balance;
    var m := if change >= 0.0 then change else -change;
    var sb := if balance >= 0.0 then 1.0 else -1.0;
    var s := sb * change * Direction(predictedUp) as real;
    var x := a * betPercentage;
    var top := a * MaxBet;
    assert balance == sb * a;
    assert UpdateBalance(balance, betPercentage, predictedUp, change) - balance == x * (Leverage * s);
    MulNonNegative(a, betPercentage);
    MulNonNegative(a, MaxBet - betPercentage);
    assert top - x == a * (MaxBet - betPercentage);
    assert -(Leverage * m) <= Leverage * s <= Leverage * m;
    MulBounds(x, top, Leverage * m, Leverage * s);
    assert top * (Leverage * m) == a * MaxBet * Leverage * m;
  }

  /** A product of two non-negatives is non-negative. */
  lemma MulNonNegative(a: real, b: real)
    requires a >= 0.0 && b >= 0.0
    ensures a * b >= 0.0
  {
  }

  /** |x * y| <= b * m when 0 <= x <= b and |y| <= m. */
  lemma MulBounds(x: real, b: real, m: real, y: real)
    requires 0.0 <= x <= b && -m <= y <= m
    ensures -(b * m) <= x * y <= b * m
  {
    if y >= 0.0 {
      assert x * y <= b * y <= b * m;
    } else {
      assert x * (-y) <= b * (-y) <= b * m;
    }
  }

  /** A positive balance stays positive while the move is smaller than 1 / (Leverage * MaxBet),
      that is, smaller than 50%. */
  lemma BalanceStaysPositive(balance: real, betPercentage: real, predictedUp: bool, change: real)
    requires balance > 0.0 && MinBet <= betPercentage <= MaxBet
    requires -0.5 < change < 0.5
    ensures UpdateBalance(balance, betPercentage, predictedUp, change) > 0.0
  {
    var m := if change >= 0.0 then change else -change;
    var y := Leverage * (change * Direction(predictedUp) as real);
    assert -(Leverage * m) <= y <= Leverage * m;
    MulBounds(betPercentage, MaxBet, Leverage * m, y);
    assert MaxBet * (Leverage * m) == 2.0 * m;
    var f := betPercentage * y;
    assert -1.0 < f < 1.0;
    UpdateBalanceFactored(balance, betPercentage, predictedUp, change);
    ScaledPositive(balance, f, UpdateBalance(balance, betPercentage, predictedUp, change));
  }

  /** Scaling a positive amount by a factor above zero keeps it positive. */
  lemma ScaledPositive(x: real, f: real, b: real)
    requires x > 0.0 && f > -1.0 && b == x * (1.0 + f)
    ensures b > 0.0
  {
  }

  /** The balance update as the old balance scaled by one plus the stake times the leveraged
      directional move. */
  lemma UpdateBalanceFactored(balance: real, betPercentage: real, predictedUp: bool, change: real)
    ensures UpdateBalance(balance, betPercentage, predictedUp, change)
         == balance * (1.0 + betPercentage * (Leverage * (change * Direction(predictedUp) as real)))
  {
  }

  /** The balance is not floored at zero: a large enough wrong move leaves it negative. */
  lemma BalanceCanGoNegative()
    ensures UpdateBalance(1000.0, MaxBet, true, -0.6) < 0.0
  {
  }

  /** The relative move from `previousPrice` to the fetched price, or no move at all when the
      price could not be fetched. */
  function PercentageChange(previousPrice: real, currentPrice: Option<real>): (c: real)
    requires previousPrice != 0.0
    ensures currentPrice.None? ==> c == 0.0
    ensures currentPrice.Some? ==> previousPrice * (1.0 + c) == currentPrice.value
  {
    match currentPrice
    case None => 0.0
    case Some(price) => (price - previousPrice) / previousPrice
  }

  /** For a positive previous price, the move is positive exactly when the price rose and negative
      exactly when it fell. */
  lemma PercentageChangeSign(previousPrice: real, price: real)
    requires previousPrice > 0.0
    ensures PercentageChange(previousPrice, Some(price)) > 0.0 <==> price > previousPrice
    ensures PercentageChange(previousPrice, Some(price)) < 0.0 <==> price < previousPrice
  {
    var c := PercentageChange(previousPrice, Some(price));
    assert price - previousPrice == previousPrice * c;
    if c > 0.0 {
      assert previousPrice * c > 0.0;
    } else if c < 0.0 {
      assert previousPrice * (-c) > 0.0;
    }
  }

  /** A failed price fetch counts as a wrong prediction in either direction and leaves the balance
      where it was. */
  lemma PriceFailureIsNeutralLoss(previousPrice: real, balance: real, betPercentage: real, predictedUp: bool)
    requires previousPrice != 0.0
    ensures !PredictionCorrect(predictedUp, PercentageChange(previousPrice, None))
    ensures UpdateBalance(balance, betPercentage, predictedUp, PercentageChange(previousPrice, None)) == balance
  {
  }

  /** A balance of 1000 bet up at probability 0.8 (an 8.6% stake) on a 1% rise ends at 1017.2. */
  lemma ExampleWin()
    ensures BetPercentage(0.8) == 0.086
    ensures PredictionCorrect(true, 0.01)
    ensures UpdateBalance(1000.0, BetPercentage(0.8), true, 0.01) == 1017.2
  {
  }

  /** A balance of 1000 bet up at probability 0.8 on a 2% fall ends at 965.6 and is a miss. */
  lemma ExampleLoss()
    ensures !PredictionCorrect(true, -0.02)
    ensures UpdateBalance(1000.0, BetPercentage(0.8), true, -0.02) == 965.6
  {
  }
}
