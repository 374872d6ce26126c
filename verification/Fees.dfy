/** The fee split of a card payment, and what is left of it once the columns are rounded to cents. */
module Fees {
  datatype Split = Split(rate: real, fee: real, gross: real, net: real)

  /** `applyFee`. */
  function ApplyFee(amount: real, rate: real): real {
    amount * (1.0 - rate)
  }

  /** `calculatePaymentFees`. */
  function CalculateFees(amount: real, rate: real): (s: Split)
    requires 0.0 <= rate < 1.0
    ensures ApplyFee(s.gross, s.rate) == amount == s.net
    ensures s.gross == s.fee + s.net
  {
    var gross := amount / (1.0 - rate);
    Split(rate, gross - amount, gross, amount)
  }

  /** A non-negative value as a two-decimal column stores it, in cents. */
  function Cents(x: real): int {
    (100.0 * x + 0.5).Floor
  }

  function Column(x: real): real {
    Cents(x) as real / 100.0
  }

  /** How far rounding moved a value, in cents. */
  function Residue(x: real): (r: real)
    ensures -0.5 <= r < 0.5
  {
    100.0 * x - Cents(x) as real
  }

  predicate WholeCents(x: real) {
    100.0 * x == Cents(x) as real
  }

  /** The row `createPayment` inserts. */
  datatype Columns = Columns(amount: real, feeRate: real, feeAmount: real, netAmount: real)

  function Stored(s: Split): Columns {
    Columns(Column(s.gross), Column(s.rate), Column(s.fee), Column(s.net))
  }

  lemma FloorUnique(x: real, n: int)
    requires n as real <= x < n as real + 1.0
    ensures x.Floor == n
  {
  }

  /** Two columns add up to the column of the sum exactly when their residues do not carry. */
  lemma ColumnsAdd(x: real, y: real)
    ensures Cents(x + y) == Cents(x) + Cents(y) <==> -0.5 <= Residue(x) + Residue(y) < 0.5
    ensures -1 <= Cents(x + y) - Cents(x) - Cents(y) <= 1
  {
    var z := 100.0 * (x + y) + 0.5;
    var n := Cents(x) + Cents(y);
    assert z == n as real + (Residue(x) + Residue(y) + 0.5);
    if -0.5 <= Residue(x) + Residue(y) < 0.5 {
      FloorUnique(z, n);
    }
  }

  /**
   * The stored row is off by at most a cent, balances exactly when the rounding residues of fee and net do not
   * carry, and so always balances when the requested net is whole cents.
   */
  lemma StoredRowBalances(amount: real, rate: real)
    requires 0.0 <= amount && 0.0 <= rate < 1.0
    ensures var s := CalculateFees(amount, rate);
            var row := Stored(s);
            && (row.amount == row.feeAmount + row.netAmount <==> -0.5 <= Residue(s.fee) + Residue(s.net) < 0.5)
            && (WholeCents(amount) ==> row.amount == row.feeAmount + row.netAmount)
            && -0.01 <= row.amount - (row.feeAmount + row.netAmount) <= 0.01
  {
    var s := CalculateFees(amount, rate);
    ColumnsAdd(s.fee, s.net);
  }

  /** A net of half a cent does not balance: amount 0.01, fee 0.01, net 0.01. */
  lemma FractionalCentsMayNotBalance()
    ensures var row := Stored(CalculateFees(0.005, 0.5));
            row.amount == row.feeAmount == row.netAmount == 0.01
  {
  }

  lemma Shrinks(x: real, factor: real)
    requires 0.0 <= factor <= 1.0 && -0.005 <= x <= 0.005
    ensures -0.005 <= x * factor <= 0.005
  {
    if x >= 0.0 {
      assert 0.0 <= x * factor <= x;
    } else {
      assert 0.0 <= (-x) * factor <= -x;
    }
  }

  /** Taking the fee off the stored amount gives the requested net to within half a cent. */
  lemma StoredAmountRecoversNet(amount: real, rate: real)
    requires 0.0 <= amount && 0.0 <= rate < 1.0
    ensures var row := Stored(CalculateFees(amount, rate));
            -0.005 <= ApplyFee(row.amount, rate) - amount <= 0.005
  {
    var s := CalculateFees(amount, rate);
    var error := Stored(s).amount - s.gross;
    assert -0.005 <= error <= 0.005;
    Shrinks(error, 1.0 - rate);
    assert ApplyFee(Stored(s).amount, rate) == ApplyFee(s.gross, rate) + error * (1.0 - rate);
  }

  /** The net can be read back from the row alone: stored amount less stored rate, to within half a cent. */
  ghost predicate RowRecovers(amount: real, rate: real)
    requires 0.0 <= rate < 1.0
  {
    var row := Stored(CalculateFees(amount, rate));
    -0.005 <= ApplyFee(row.amount, row.feeRate) - amount <= 0.005
  }

  lemma Outgrows(x: real, size: real)
    requires size > 0.0 && x >= 1.0 / size
    ensures x * size >= 1.0
  {
    var q := 1.0 / size;
    assert q * size == 1.0;
    assert (x - q) * size >= 0.0;
    assert x * size == q * size + (x - q) * size;
  }

  lemma Undone(x: real, k: real)
    requires k != 0.0
    ensures x * k / k == x
  {
  }

  /** A whole amount large enough that the rate's rounding error shows. */
  lemma LargeEnough(drift: real) returns (gross: nat)
    requires drift != 0.0
    ensures gross as real * drift >= 1.0 || gross as real * drift <= -1.0
  {
    var size := if drift > 0.0 then drift else -drift;
    gross := (1.0 / size).Floor + 1;
    Outgrows(gross as real, size);
    if drift < 0.0 {
      assert gross as real * drift == -(gross as real * size);
    }
  }

  lemma WholeAmountsKeep(gross: nat)
    ensures Column(gross as real) == gross as real
  {
    FloorUnique(100.0 * gross as real + 0.5, 100 * gross);
  }

  lemma RateDifference(x: real, a: real, b: real)
    ensures ApplyFee(x, a) - ApplyFee(x, b) == x * (b - a)
  {
    assert x * (1.0 - a) == x - x * a;
    assert x * (1.0 - b) == x - x * b;
    assert x * (b - a) == x * b - x * a;
  }

  lemma NonNegative(x: real, y: real)
    requires x >= 0.0 && y >= 0.0
    ensures x * y >= 0.0
  {
  }

  lemma DriftShows(rate: real) returns (amount: real)
    requires 0.0 <= rate < 1.0 && !WholeCents(rate)
    ensures amount >= 0.0 && !RowRecovers(amount, rate)
  {
    var drift := rate - Column(rate);
    var gross := LargeEnough(drift);
    amount := ApplyFee(gross as real, rate);
    Undone(gross as real, 1.0 - rate);
    assert CalculateFees(amount, rate).gross == gross as real;
    WholeAmountsKeep(gross);
    RateDifference(gross as real, Column(rate), rate);
    assert Stored(CalculateFees(amount, rate)).amount == gross as real;
    NonNegative(gross as real, 1.0 - rate);
  }

  /** The rate column keeps two decimals, so the row alone gives back every net exactly when the rate has two. */
  lemma StoredRateSuffices(rate: real)
    requires 0.0 <= rate < 1.0
    ensures (forall amount | amount >= 0.0 :: RowRecovers(amount, rate)) <==> WholeCents(rate)
  {
    if WholeCents(rate) {
      assert Column(rate) == rate;
      forall amount | amount >= 0.0
        ensures RowRecovers(amount, rate)
      {
        StoredAmountRecoversNet(amount, rate);
      }
    } else {
      var amount := DriftShows(rate);
    }
  }

  /** The default rate 0.052 is stored as 0.05: a net of 94.80 is charged 100 but reads back as 95. */
  lemma DefaultRateIsTruncated()
    ensures var row := Stored(CalculateFees(94.8, 0.052));
            row.amount == 100.0 && row.feeRate == 0.05 && ApplyFee(row.amount, row.feeRate) == 95.0
  {
  }
}
