/** Scaling fees between decimals, and the allowance for creating a token bridge. */
module Fees {
  function Pow10(k: nat): (p: nat)
    ensures p > 0
  {
    if k == 0 then 1 else 10 * Pow10(k - 1)
  }

  /** `units` of a token with `decimals` are worth at least `amount`, which has 18 decimals. */
  predicate Covers(decimals: nat, amount: nat, units: nat) {
    if decimals < 18 then units * Pow10(18 - decimals) >= amount
    else units >= amount * Pow10(decimals - 18)
  }

  function CeilDiv(n: nat, f: nat): nat
    requires f > 0
  {
    (n + f - 1) / f
  }

  /** The amount in the token's units, rounded up. */
  function Scaled(decimals: nat, amount: nat): nat {
    if decimals < 18 then CeilDiv(amount, Pow10(18 - decimals))
    else amount * Pow10(decimals - 18)
  }

  // ---------------------------------------------------------------- the three programs

  /** `_getScaledAmount`, of the scripts and of the creator contract. */
  method GetScaledAmount(decimals: nat, amount: nat) returns (r: nat)
    ensures r == Scaled(decimals, amount)
  {
    hide Scaled, Pow10;
    ScaledCases(decimals, amount);
    if decimals == 18 {
      return amount;
    } else if decimals < 18 {
      var scaledAmount := amount / Pow10(18 - decimals);
      if scaledAmount * Pow10(18 - decimals) < amount {
        scaledAmount := scaledAmount + 1;
      }
      return scaledAmount;
    } else {
      return amount * Pow10(decimals - 18);
    }
  }

  /** `_getPrescaledAmount` */
  method GetPrescaledAmount(decimals: nat, amount: nat) returns (r: nat)
    ensures r == Scaled(decimals, amount)
  {
    hide Scaled, Pow10;
    ScaledCases(decimals, amount);
    if decimals < 18 {
      var scalingFactor := Pow10(18 - decimals);
      var prescaledAmount := amount / scalingFactor;
      if prescaledAmount * scalingFactor < amount {
        prescaledAmount := prescaledAmount + 1;
      }
      return prescaledAmount;
    } else if decimals > 18 {
      return amount * Pow10(decimals - 18);
    }
    return amount;
  }

  /** The fee that the fuzz test expects the creator to take. */
  method ExpectedFee(decimals: nat, gasForFactory: nat, gasForContracts: nat, gasPriceBid: nat) returns (r: nat)
    ensures r == Taken(decimals, gasForFactory, gasForContracts, gasPriceBid)
  {
    hide Scaled, Pow10;
    var contractsFee, factoryFee := gasForContracts * gasPriceBid, gasForFactory * gasPriceBid;
    ScaledCases(decimals, contractsFee);
    ScaledCases(decimals, factoryFee);
    r := 0;
    if decimals < 18 {
      var f := Pow10(18 - decimals);
      var forContracts := contractsFee / f;
      if forContracts * f < contractsFee {
        forContracts := forContracts + 1;
      }
      var forFactory := factoryFee / f;
      if forFactory * f < factoryFee {
        forFactory := forFactory + 1;
      }
      r := forContracts + forFactory;
    }
    if decimals > 18 {
      r := contractsFee * Pow10(decimals - 18) + factoryFee * Pow10(decimals - 18);
    }
    if decimals == 18 {
      r := contractsFee + factoryFee;
    }
  }

  /** Scaling, as the programs compute it. */
  lemma ScaledCases(decimals: nat, amount: nat)
    ensures decimals == 18 ==> Scaled(decimals, amount) == amount
    ensures decimals > 18 ==> Scaled(decimals, amount) == amount * Pow10(decimals - 18)
    ensures decimals < 18 ==>
      var q, f := amount / Pow10(18 - decimals), Pow10(18 - decimals);
      Scaled(decimals, amount) == q + (if q * f < amount then 1 else 0)
  {
    hide CeilDiv;
    if decimals < 18 {
      hide Pow10;
      RoundingUp(amount, Pow10(18 - decimals));
    } else if decimals == 18 {
      assert Pow10(0) == 1;
    }
  }

  /** Truncating division followed by an increment rounds up. */
  lemma RoundingUp(amount: nat, f: nat)
    requires f > 0
    ensures CeilDiv(amount, f) == amount / f + (if amount / f * f < amount then 1 else 0)
  {
    var q, rest := amount / f, amount % f;
    assert amount == q * f + rest;
    if rest == 0 {
      DivisionIs(amount + f - 1, f, q);
    } else {
      assert (q + 1) * f == q * f + f;
      DivisionIs(amount + f - 1, f, q + 1);
    }
  }

  lemma DivisionIs(n: nat, f: nat, q: nat)
    requires f > 0 && q * f <= n < q * f + f
    ensures n / f == q
  {
    var k := n / f;
    assert n == k * f + n % f;
    if k < q {
      Times(k + 1, q, f);
    } else if k > q {
      Times(q + 1, k, f);
    }
  }

  lemma Times(a: nat, b: nat, f: nat)
    ensures a <= b ==> a * f <= b * f
    ensures (a + b) * f == a * f + b * f
  {
  }

  lemma CeilDivBounds(n: nat, f: nat)
    requires f > 0
    ensures n <= CeilDiv(n, f) * f < n + f
  {
    var m := n + f - 1;
    assert m == m / f * f + m % f;
  }

  // ---------------------------------------------------------------- what scaling means

  /** Rounding adds less than one unit, and nothing with 18 decimals or more. */
  lemma RoundingIsSmall(decimals: nat, amount: nat)
    ensures var s := Scaled(decimals, amount);
            if decimals < 18 then amount <= s * Pow10(18 - decimals) < amount + Pow10(18 - decimals)
            else s == amount * Pow10(decimals - 18)
  {
    hide Pow10, CeilDiv;
    if decimals < 18 {
      CeilDivBounds(amount, Pow10(18 - decimals));
    }
  }

  /** The scaled amount is the least number of units that covers the amount. */
  lemma LeastCover(decimals: nat, amount: nat, units: nat)
    ensures Covers(decimals, amount, units) <==> Scaled(decimals, amount) <= units
  {
    if decimals < 18 {
      var f, s := Pow10(18 - decimals), Scaled(decimals, amount);
      RoundingIsSmall(decimals, amount);
      Times(s, units, f);
      if units < s {
        Times(units, s - 1, f);
        Times(s - 1, 1, f);
      }
    }
  }

  lemma ScaledMonotone(decimals: nat, a: nat, b: nat)
    requires a <= b
    ensures Scaled(decimals, a) <= Scaled(decimals, b)
  {
    if decimals < 18 {
      LeastCover(decimals, b, Scaled(decimals, b));
      LeastCover(decimals, a, Scaled(decimals, b));
    } else {
      assert a * Pow10(decimals - 18) <= b * Pow10(decimals - 18);
    }
  }

  lemma ScaledSubadditive(decimals: nat, a: nat, b: nat)
    ensures Scaled(decimals, a + b) <= Scaled(decimals, a) + Scaled(decimals, b)
  {
    var sa, sb := Scaled(decimals, a), Scaled(decimals, b);
    LeastCover(decimals, a, sa);
    LeastCover(decimals, b, sb);
    LeastCover(decimals, a + b, sa + sb);
  }

  /** One ether's worth in a token with 6 decimals, a wei's worth of it, and others. */
  lemma Examples()
    ensures Scaled(6, 1_000_000_000_000_000_000) == 1_000_000 && Scaled(6, 1) == 1 && Scaled(6, 0) == 0
    ensures Scaled(18, 7) == 7 && Scaled(17, 11) == 2 && Scaled(20, 7) == 700
  {
    assert Pow10(4) == 10000;
    assert Pow10(8) == 100000000;
    assert Pow10(12) == 1_000_000_000_000;
  }

  // ---------------------------------------------------------------- creating a token bridge

  /** What the creator takes: gas for the factory's ticket, and for the contracts'. */
  function Taken(decimals: nat, gasForFactory: nat, gasForContracts: nat, gasPrice: nat): nat {
    Scaled(decimals, gasForFactory * gasPrice) + Scaled(decimals, gasForContracts * gasPrice)
  }

  /** `createTokenBridge`: the allowance approved, from the estimated submission cost of the
      factory's ticket and the estimated gas for the contracts' ticket, both doubled for the
      second ticket. */
  method ApproveFees(decimals: nat, submission: nat, gasForFactory: nat, gasEstimate: nat, gasPrice: nat)
    returns (approved: nat, maxGasForContracts: nat)
    ensures maxGasForContracts == 2 * gasEstimate
    ensures var taken := Taken(decimals, gasForFactory, maxGasForContracts, gasPrice);
            taken <= approved <= taken + Scaled(decimals, submission) + Scaled(decimals, 2 * submission)
    ensures approved >= Taken(decimals, gasForFactory, maxGasForContracts, gasPrice) + Scaled(decimals, submission)
                        + Scaled(decimals, 2 * submission) - (if decimals < 18 then 2 else 0)
  {
    maxGasForContracts := gasEstimate * 2;
    var maxSubmissionForContracts := submission * 2;
    var retryableFeeForFactory := submission + gasForFactory * gasPrice;
    var retryableFeeForContracts := maxSubmissionForContracts + maxGasForContracts * gasPrice;
    var forFactory := GetScaledAmount(decimals, retryableFeeForFactory);
    var forContracts := GetScaledAmount(decimals, retryableFeeForContracts);
    approved := forFactory + forContracts;
    ScaledSplits(decimals, submission, gasForFactory * gasPrice);
    ScaledSplits(decimals, maxSubmissionForContracts, maxGasForContracts * gasPrice);
  }

  /** Scaling a sum loses at most the one unit that rounding its parts separately adds. */
  lemma ScaledSplits(decimals: nat, a: nat, b: nat)
    ensures Scaled(decimals, b) <= Scaled(decimals, a + b)
    ensures var parts := Scaled(decimals, a) + Scaled(decimals, b);
            parts - (if decimals < 18 then 1 else 0) <= Scaled(decimals, a + b) <= parts
  {
    ScaledMonotone(decimals, b, a + b);
    ScaledSubadditive(decimals, a, b);
    if decimals < 18 {
      var f := Pow10(18 - decimals);
      RoundingIsSmall(decimals, a);
      RoundingIsSmall(decimals, b);
      RoundingIsSmall(decimals, a + b);
      var sa, sb, s := Scaled(decimals, a), Scaled(decimals, b), Scaled(decimals, a + b);
      Times(sa, sb, f);
      if s + 2 <= sa + sb {
        Times(s + 2, sa + sb, f);
        Times(s, 2, f);
      }
    } else {
      var f := Pow10(decimals - 18);
      assert (a + b) * f == a * f + b * f;
    }
  }
}
