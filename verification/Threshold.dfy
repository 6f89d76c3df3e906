/** Liquidity threshold rules (liquidity/threshold_rule.go), and what repeating
    their swaps leads to. */
module Threshold {
  import opened Arithmetic

  datatype SwapType = LoopOut | LoopIn

  datatype Rule = Rule(minIncoming: int, minOutgoing: int) {
    predicate Valid() {
      0 <= minIncoming <= 100 && 0 <= minOutgoing <= 100 && minIncoming + minOutgoing < 100
    }
  }

  datatype Restrictions = Restrictions(minimum: nat, maximum: nat)

  /** Balances of a channel, or of all channels of a peer; pending HTLCs belong to
      neither side. */
  datatype Balances = Balances(capacity: nat, incoming: nat, outgoing: nat)

  ghost predicate WithinCapacity(b: Balances) {
    b.incoming + b.outgoing <= b.capacity
  }

  function Portion(capacity: nat, percentage: nat): nat {
    capacity * percentage / 100
  }

  function Midpoint(capacity: nat, targetPercentage: nat, reservePercentage: nat): int
    requires reservePercentage <= 100
  {
    (Portion(capacity, targetPercentage) + (capacity - Portion(capacity, reservePercentage))) / 2
  }

  function CalculateSwapAmount(
      target: nat, reserve: nat, capacity: nat, targetPercentage: nat, reservePercentage: nat): int
    requires reservePercentage <= 100
  {
    var targetGoal := Portion(capacity, targetPercentage);
    var reserveMinimum := Portion(capacity, reservePercentage);
    if target >= targetGoal || reserve <= reserveMinimum then 0
    else
      var required := Midpoint(capacity, targetPercentage, reservePercentage) - target;
      if reserve - reserveMinimum < required then 0 else required
  }

  /** The amount before it is limited. */
  function Need(rule: Rule, b: Balances, swapType: SwapType): int
    requires rule.Valid()
  {
    match swapType
    case LoopOut => CalculateSwapAmount(b.incoming, b.outgoing, b.capacity, rule.minIncoming, rule.minOutgoing)
    case LoopIn => CalculateSwapAmount(b.outgoing, b.incoming, b.capacity, rule.minOutgoing, rule.minIncoming)
  }

  function SwapAmount(rule: Rule, b: Balances, limits: Restrictions, swapType: SwapType): int
    requires rule.Valid()
  {
    var amount := Need(rule, b, swapType);
    if amount < limits.minimum then 0 else if amount > limits.maximum then limits.maximum else amount
  }

  // ----- One swap -----

  function Target(b: Balances, swapType: SwapType): nat {
    if swapType.LoopOut? then b.incoming else b.outgoing
  }

  function Reserve(b: Balances, swapType: SwapType): nat {
    if swapType.LoopOut? then b.outgoing else b.incoming
  }

  function TargetGoal(rule: Rule, b: Balances, swapType: SwapType): nat
    requires rule.Valid()
  {
    Portion(b.capacity, if swapType.LoopOut? then rule.minIncoming else rule.minOutgoing)
  }

  function ReserveMinimum(rule: Rule, b: Balances, swapType: SwapType): nat
    requires rule.Valid()
  {
    Portion(b.capacity, if swapType.LoopOut? then rule.minOutgoing else rule.minIncoming)
  }

  function Aim(rule: Rule, b: Balances, swapType: SwapType): int
    requires rule.Valid()
  {
    if swapType.LoopOut? then Midpoint(b.capacity, rule.minIncoming, rule.minOutgoing)
    else Midpoint(b.capacity, rule.minOutgoing, rule.minIncoming)
  }

  function Opposite(swapType: SwapType): SwapType {
    if swapType.LoopOut? then LoopIn else LoopOut
  }

  /** A completed swap moves its amount from the reserve to the target side. */
  function Swapped(b: Balances, amount: nat, swapType: SwapType): Balances
    requires amount <= Reserve(b, swapType)
  {
    match swapType
    case LoopOut => b.(incoming := b.incoming + amount, outgoing := b.outgoing - amount)
    case LoopIn => b.(outgoing := b.outgoing + amount, incoming := b.incoming - amount)
  }

  /** In the numbers of the rule and the channel: the goal and the reserve's minimum are
      those percentages of the capacity, rounded down, and the aim is halfway, rounded
      down, between the goal and what the minimum of the reserve leaves. */
  lemma GoalsExactly(rule: Rule, b: Balances, swapType: SwapType)
    requires rule.Valid()
    ensures var goal, minimum, aim :=
              TargetGoal(rule, b, swapType), ReserveMinimum(rule, b, swapType), Aim(rule, b, swapType);
            var (wanted, kept) :=
              if swapType.LoopOut? then (rule.minIncoming, rule.minOutgoing) else (rule.minOutgoing, rule.minIncoming);
            && 100 * goal <= b.capacity * wanted < 100 * goal + 100
            && 100 * minimum <= b.capacity * kept < 100 * minimum + 100
            && 2 * aim <= goal + (b.capacity - minimum) <= 2 * aim + 1
  {
  }

  lemma PortionsFit(capacity: nat, p: nat, q: nat)
    requires p + q < 100
    ensures Portion(capacity, p) + Portion(capacity, q) <= capacity
  {
    assert capacity * p + capacity * q == capacity * (p + q);
    MulMonotonic(capacity, p + q, 100);
  }

  /** The aim lies between the goal and what the reserve's minimum leaves. */
  lemma AimBetween(rule: Rule, b: Balances, swapType: SwapType)
    requires rule.Valid()
    ensures TargetGoal(rule, b, swapType) <= Aim(rule, b, swapType) <= b.capacity - ReserveMinimum(rule, b, swapType)
  {
    PortionsFit(b.capacity, rule.minIncoming, rule.minOutgoing);
  }

  /** Exactly when a swap is suggested, and how large it is. */
  lemma SuggestedExactly(rule: Rule, b: Balances, limits: Restrictions, swapType: SwapType)
    requires rule.Valid() && 0 < limits.minimum <= limits.maximum
    ensures var need := Aim(rule, b, swapType) - Target(b, swapType);
            var a := SwapAmount(rule, b, limits, swapType);
            && (a != 0 <==>
                  && Target(b, swapType) < TargetGoal(rule, b, swapType)
                  && need >= limits.minimum
                  && Reserve(b, swapType) - need >= ReserveMinimum(rule, b, swapType))
            && (a != 0 ==> a == (if need <= limits.maximum then need else limits.maximum))
  {
    AimBetween(rule, b, swapType);
  }

  /** A suggested swap respects the limits, does not overshoot its aim, leaves the
      reserve at its minimum or above, and the rule of the opposite direction
      suggests nothing, neither before nor after it: there is no ping-pong. */
  lemma SwapKeepsReserve(rule: Rule, b: Balances, limits: Restrictions, swapType: SwapType)
    requires rule.Valid() && 0 < limits.minimum <= limits.maximum
    requires SwapAmount(rule, b, limits, swapType) != 0
    ensures var a := SwapAmount(rule, b, limits, swapType);
            && limits.minimum <= a <= limits.maximum
            && a <= Reserve(b, swapType)
            && var b' := Swapped(b, a, swapType);
               && Target(b', swapType) <= Aim(rule, b, swapType)
               && Reserve(b', swapType) >= ReserveMinimum(rule, b, swapType)
               && (WithinCapacity(b) ==> WithinCapacity(b'))
               && SwapAmount(rule, b, limits, Opposite(swapType)) == 0
               && SwapAmount(rule, b', limits, Opposite(swapType)) == 0
  {
  }

  // ----- All swaps -----

  /** The rule applied again and again, each swap completing before the next, until
      it suggests nothing. */
  function Converge(rule: Rule, b: Balances, limits: Restrictions, swapType: SwapType): Balances
    requires rule.Valid() && 0 < limits.minimum <= limits.maximum
    decreases Reserve(b, swapType)
  {
    var a := SwapAmount(rule, b, limits, swapType);
    if a == 0 then b
    else
      SwapKeepsReserve(rule, b, limits, swapType);
      Converge(rule, Swapped(b, a, swapType), limits, swapType)
  }

  /** Where a rule that suggests a swap ends up: the target is met or what is still
      missing is below the smallest swap; the reserve was never taken below its
      minimum; nothing was lost or gained; and neither direction suggests more. */
  lemma {:induction false} Converges(rule: Rule, b: Balances, limits: Restrictions, swapType: SwapType)
    requires rule.Valid() && 0 < limits.minimum <= limits.maximum
    requires SwapAmount(rule, b, limits, swapType) != 0
    ensures var b' := Converge(rule, b, limits, swapType);
            && (|| Target(b', swapType) >= TargetGoal(rule, b, swapType)
                || Aim(rule, b, swapType) - Target(b', swapType) < limits.minimum)
            && Target(b, swapType) < Target(b', swapType) <= Aim(rule, b, swapType)
            && Reserve(b', swapType) >= ReserveMinimum(rule, b, swapType)
            && b'.capacity == b.capacity
            && b'.incoming + b'.outgoing == b.incoming + b.outgoing
            && SwapAmount(rule, b', limits, swapType) == 0
            && SwapAmount(rule, b', limits, Opposite(swapType)) == 0
    decreases Reserve(b, swapType)
  {
    SwapKeepsReserve(rule, b, limits, swapType);
    SuggestedExactly(rule, b, limits, swapType);
    var b1 := Swapped(b, SwapAmount(rule, b, limits, swapType), swapType);
    SuggestedExactly(rule, b1, limits, swapType);
    if SwapAmount(rule, b1, limits, swapType) != 0 {
      Converges(rule, b1, limits, swapType);
    }
  }

  /** Every state on the way. */
  ghost predicate Reached(rule: Rule, b: Balances, limits: Restrictions, swapType: SwapType, b': Balances)
    requires rule.Valid() && 0 < limits.minimum <= limits.maximum
    decreases Reserve(b, swapType)
  {
    || b' == b
    || (&& SwapAmount(rule, b, limits, swapType) != 0
        && (SwapKeepsReserve(rule, b, limits, swapType);
            Reached(rule, Swapped(b, SwapAmount(rule, b, limits, swapType), swapType), limits, swapType, b')))
  }

  lemma {:induction false} ReserveNeverBelow(
      rule: Rule, b: Balances, limits: Restrictions, swapType: SwapType, b': Balances)
    requires rule.Valid() && 0 < limits.minimum <= limits.maximum
    requires Reached(rule, b, limits, swapType, b') && b' != b
    ensures Reserve(b', swapType) >= ReserveMinimum(rule, b, swapType)
    ensures SwapAmount(rule, b', limits, Opposite(swapType)) == 0
    decreases Reserve(b, swapType)
  {
    SwapKeepsReserve(rule, b, limits, swapType);
    var b1 := Swapped(b, SwapAmount(rule, b, limits, swapType), swapType);
    if b' != b1 {
      ReserveNeverBelow(rule, b1, limits, swapType, b');
    }
  }
}
