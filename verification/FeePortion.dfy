/** Fee limits expressed as a portion of the swap amount (liquidity/fees.go). */
module FeePortion {
  import opened Arithmetic
  import opened Options

  const FEE_BASE := 1_000_000
  const MINER_MULTIPLIER := 2
  const MAX_MINER_MULTIPLIER := 50

  datatype Quote = Quote(swapFee: nat, prepayAmount: nat, minerFee: nat)

  datatype Refusal = MinerFee | SwapFee | PpmInsufficient

  datatype OutFees = OutFees(prepay: nat, route: nat, miner: nat)

  function PpmToSat(amount: nat, ppm: nat): nat {
    amount * ppm / FEE_BASE
  }

  function WorstCaseOutFees(prepayRouting: int, swapRouting: int, swapFee: int, minerFee: int): int {
    prepayRouting + minerFee + swapFee + swapRouting
  }

  function Quotient(x: nat, d: nat): (q: nat)
    requires d > 0
    ensures d * q <= x < d * q + d
  {
    x / d
  }

  function SplitOffChain(available: nat, prepayAmount: nat, swapAmount: nat): (nat, nat)
    requires swapAmount + prepayAmount > 0
  {
    var total := swapAmount + prepayAmount;
    (Quotient(available * prepayAmount, total), Quotient(available * swapAmount, total))
  }

  /** Only meaningful once the quote has been found to leave something for routing. */
  function LoopOutFees(amount: nat, ppm: nat, q: Quote): OutFees
    requires MINER_MULTIPLIER * q.minerFee + q.swapFee < PpmToSat(amount, ppm)
  {
    LimitNeedsAmount(amount, ppm);
    var minerFee := q.minerFee * MINER_MULTIPLIER;
    var (prepay, route) := SplitOffChain(PpmToSat(amount, ppm) - minerFee - q.swapFee, q.prepayAmount, amount);
    OutFees(prepay, route, minerFee * MAX_MINER_MULTIPLIER)
  }

  function LoopOutLimits(amount: nat, ppm: nat, q: Quote): (refusal: Option<Refusal>) {
    var feeLimit := PpmToSat(amount, ppm);
    var minerFee := q.minerFee * MINER_MULTIPLIER;
    if minerFee > feeLimit then Some(MinerFee)
    else if q.swapFee > feeLimit then Some(SwapFee)
    else if minerFee + q.swapFee >= feeLimit then Some(PpmInsufficient)
    else
      var fees := LoopOutFees(amount, ppm, q);
      if WorstCaseOutFees(fees.prepay, fees.route, q.swapFee, fees.miner / MAX_MINER_MULTIPLIER) > feeLimit
      then Some(PpmInsufficient)
      else None
  }

  /** Nothing can be spent on a zero amount, so the split never divides by zero. */
  lemma LimitNeedsAmount(amount: nat, ppm: nat)
    ensures PpmToSat(amount, ppm) > 0 ==> amount > 0
  {
  }

  /** Each payment gets its own share of what is available, rounded down, and the split
      loses at most one satoshi. */
  lemma SplitLosesAtMostOne(available: nat, prepayAmount: nat, swapAmount: nat)
    requires swapAmount + prepayAmount > 0
    ensures var (prepay, route) := SplitOffChain(available, prepayAmount, swapAmount);
            var total := prepayAmount + swapAmount;
            && total * prepay <= available * prepayAmount < total * prepay + total
            && total * route <= available * swapAmount < total * route + total
            && available - 1 <= prepay + route <= available
  {
    var total := swapAmount + prepayAmount;
    var x, y := available * prepayAmount, available * swapAmount;
    var (p, r) := SplitOffChain(available, prepayAmount, swapAmount);
    assert x + y == total * available;
    assert total * (p + r) == total * p + total * r;
    assert total * (available + 1) == total * available + total;
    assert total * (p + r + 2) == total * (p + r) + 2 * total;
    if p + r > available {
      MulMonotonic(total, available + 1, p + r);
    }
    if p + r + 2 <= available {
      MulMonotonic(total, p + r + 2, available);
    }
  }

  /** The limit is the amount's parts per million, rounded down.
      Acceptance depends on the quote alone: routing is allotted what is left, so
      that the check of the total, made last, never refuses. All of what an
      accepted swap may pay stays within the limit, missing it by one at most. */
  lemma AcceptedExactly(amount: nat, ppm: nat, q: Quote)
    ensures var limit := PpmToSat(amount, ppm);
            && 1_000_000 * limit <= amount * ppm < 1_000_000 * limit + 1_000_000
            && (LoopOutLimits(amount, ppm, q).None? <==> 2 * q.minerFee + q.swapFee < limit)
            && (LoopOutLimits(amount, ppm, q).None? ==>
                  var fees := LoopOutFees(amount, ppm, q);
                  && fees.miner == 100 * q.minerFee
                  && limit - 1 <= fees.prepay + fees.route + q.swapFee + 2 * q.minerFee <= limit)
            && (LoopOutLimits(amount, ppm, q) == Some(MinerFee) <==> 2 * q.minerFee > limit)
            && (LoopOutLimits(amount, ppm, q) == Some(SwapFee) <==> 2 * q.minerFee <= limit < q.swapFee)
  {
    var limit := PpmToSat(amount, ppm);
    if MINER_MULTIPLIER * q.minerFee + q.swapFee < limit {
      LimitNeedsAmount(amount, ppm);
      SplitLosesAtMostOne(limit - MINER_MULTIPLIER * q.minerFee - q.swapFee, q.prepayAmount, amount);
    }
  }
}
