/** The commission split of an escrow payout, over exact reals. */
module Commission {

  /** `round` to the nearest integer, halves to even. */
  function RoundHalfEven(x: real): int {
    var below := x.Floor;
    var rest := x - below as real;
    if rest < 0.5 then below
    else if rest > 0.5 then below + 1
    else if below % 2 == 0 then below
    else below + 1
  }

  function CommissionOf(amount: nat, rate: real): int {
    RoundHalfEven(amount as real * rate)
  }

  function NetOf(amount: nat, rate: real): int {
    amount - CommissionOf(amount, rate)
  }

  /** No integer is nearer than the rounded one. */
  lemma RoundIsNearest(x: real, n: int)
    ensures -0.5 <= RoundHalfEven(x) as real - x <= 0.5
    ensures
      var d := RoundHalfEven(x) as real - x;
      var e := n as real - x;
      (if d < 0.0 then -d else d) <= (if e < 0.0 then -e else e)
  {
    var r := RoundHalfEven(x);
    assert n <= r - 1 || n == r || n >= r + 1;
  }

  lemma RoundIsMonotone(x: real, y: real)
    requires x <= y
    ensures RoundHalfEven(x) <= RoundHalfEven(y)
  {
    assert x.Floor <= y.Floor;
  }

  /** For a rate between 0 and 1 the commission lies between 0 and the amount, is within a
      half of the exact share, and leaves a payable net amount. */
  lemma CommissionBounds(amount: nat, rate: real)
    requires 0.0 <= rate <= 1.0
    ensures 0 <= CommissionOf(amount, rate) <= amount
    ensures -0.5 <= CommissionOf(amount, rate) as real - amount as real * rate <= 0.5
    ensures 0 <= NetOf(amount, rate) <= amount
    ensures CommissionOf(amount, rate) + NetOf(amount, rate) == amount
  {
    var share := amount as real * rate;
    assert 0.0 <= share <= amount as real;
    RoundIsNearest(share, 0);
    RoundIsMonotone(0.0, share);
    RoundIsMonotone(share, amount as real);
    assert RoundHalfEven(0.0) == 0;
    RoundOfInteger(amount);
  }

  lemma RoundOfInteger(n: int)
    ensures RoundHalfEven(n as real) == n
  {
  }

  /** The commission-free payout of a late cancellation pays everything. */
  lemma ZeroRatePaysAll(amount: nat)
    ensures NetOf(amount, 0.0) == amount
  {
    assert amount as real * 0.0 == 0.0;
  }

  /** A payout is refused for a negative net amount exactly when the exact share exceeds the
      amount by more than a half, or by exactly a half with the amount odd. */
  lemma NetIsNegativeIff(amount: nat, rate: real)
    ensures NetOf(amount, rate) < 0
       <==> var over := amount as real * rate - amount as real;
            over > 0.5 || (over == 0.5 && amount % 2 == 1)
  {
    var share := amount as real * rate;
    var below := share.Floor;
    assert share - 1.0 < below as real <= share;
  }
}
