/** The cost recalculation for finished loop-outs (cost_migration.go), compared
    with what the executor books. */
module CostMigration {
  import opened Options
  import opened SwapStates
  import opened LoopOut

  type Hash = nat

  /** The routing fees that lnd still lists, in satoshis. */
  type PaymentFees = map<Hash, int>

  datatype Invoices = Invoices(prepayHash: Hash, swapHash: Hash, swapAmount: int)

  function Listed(fees: PaymentFees, h: Hash): int {
    if h in fees then fees[h] else 0
  }

  function MigratedServer(state: SwapState, c: Contract, swapAmount: int): int {
    match state
    case Success => swapAmount + c.prepayAmount - c.amount
    case FailSweepTimeout => c.prepayAmount
    case _ => 0
  }

  function MigratedOffchain(state: SwapState, fees: PaymentFees, inv: Invoices): int {
    match state
    case Success => Listed(fees, inv.prepayHash) + Listed(fees, inv.swapHash)
    case FailSweepTimeout => Listed(fees, inv.prepayHash)
    case _ => 0
  }

  method CalculateLoopOutCost(state: SwapState, c: Contract, inv: Invoices, fees: PaymentFees, onchain: int)
    returns (cost: Option<SwapCost>)
    ensures cost.None? <==> state.IsPending()
    ensures cost.Some? ==>
              && cost.value.server == MigratedServer(state, c, inv.swapAmount)
              && cost.value.offchain == MigratedOffchain(state, fees, inv)
              && cost.value.onchain >= 0 && (cost.value.onchain == onchain || cost.value.onchain == -onchain)
  {
    if state.IsPending() {
      return None;
    }
    var total := NO_COST;
    var swapPaid, prepayPaid := false, false;
    match state {
      case Success =>
        total := total.(server := inv.swapAmount + c.prepayAmount - c.amount);
        swapPaid, prepayPaid := true, true;
      case FailSweepTimeout =>
        total := total.(server := c.prepayAmount);
        prepayPaid := true;
      case _ =>
    }
    if prepayPaid && inv.prepayHash in fees {
      total := total.(offchain := total.offchain + fees[inv.prepayHash]);
    }
    if swapPaid && inv.swapHash in fees {
      total := total.(offchain := total.offchain + fees[inv.swapHash]);
    }
    total := total.(onchain := if onchain < 0 then -onchain else onchain);
    return Some(total);
  }

  /** lnd lists exactly the fees of the payments that succeeded. */
  predicate ListsPayments(fees: PaymentFees, inv: Invoices, p: Payments) {
    && Listed(fees, inv.swapHash) == RoutingFee(p.swap)
    && Listed(fees, inv.prepayHash) == RoutingFee(p.prepay)
  }

  /** In whatever order the two results arrive, before or after the HTLC confirms,
      a finished run has consumed both and booked the same costs. */
  lemma CostConfluence(c: Contract, p: Payments, w: World, height: int)
    requires WorldSafe(c, w) && LastState(w.log).IsPending() && Fresh(w) && w.height == height
    ensures var (r, err) := ExecuteAndFinalize(c, p, Run(Resume(w.log, height), w));
            !err ==>
              var booked := r.w.log[|r.w.log| - 1].cost;
              && booked.server == ServerCost(c, p.swap)
              && booked.offchain == RoutingFee(p.swap) + RoutingFee(p.prepay)
  {
    LoopOutRun(c, p, w, height);
  }

  /** The migration reproduces the costs that a finished run booked exactly when
      the amounts below agree. In particular a success whose swap invoice was paid
      at its value keeps both costs, and a sweep timeout is charged the prepayment
      that the executor did not charge. */
  lemma MigrationMatchesBooks(
      c: Contract, p: Payments, w: World, height: int, inv: Invoices, fees: PaymentFees)
    requires WorldSafe(c, w) && LastState(w.log).IsPending() && Fresh(w) && w.height == height
    requires ListsPayments(fees, inv, p)
    ensures var (r, err) := ExecuteAndFinalize(c, p, Run(Resume(w.log, height), w));
            !err ==>
              && (MigratedServer(r.m.state, c, inv.swapAmount) == r.m.cost.server <==>
                    match r.m.state
                    case Success => if p.swap.Succeeded? then p.swap.amount == inv.swapAmount
                                    else inv.swapAmount + c.prepayAmount == c.amount
                    case FailSweepTimeout => if p.swap.Succeeded? then p.swap.amount == c.amount
                                             else c.prepayAmount == 0
                    case _ => p.swap.Succeeded? ==> p.swap.amount + c.prepayAmount == c.amount)
              && (MigratedOffchain(r.m.state, fees, inv) == r.m.cost.offchain <==>
                    match r.m.state
                    case Success => true
                    case FailSweepTimeout => RoutingFee(p.swap) == 0
                    case _ => RoutingFee(p.swap) + RoutingFee(p.prepay) == 0)
  {
    LoopOutRun(c, p, w, height);
  }
}
