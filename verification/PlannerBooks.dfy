/** What the planner's own swaps have cost and may still cost, summed up over the
    swaps themselves, and what one pass keeps of it. */
module PlannerBooks {
  import opened Options
  import opened SwapStates
  import opened Planner

  // ----- Costs of finished swaps, and reserves of pending ones -----

  /** What the finished loop-outs of the planner have cost since the last refresh. */
  function SpentOuts(outs: seq<OutSwap>, since: int): int {
    if outs == [] then 0
    else
      var s := outs[|outs| - 1];
      SpentOuts(outs[..|outs| - 1], since)
      + (if s.labelled && s.state.IsFinal() && s.updated > since then s.cost else 0)
  }

  /** The highest fees of all kinds that its pending loop-outs may pay. */
  function ReservedOuts(outs: seq<OutSwap>): int {
    if outs == [] then 0
    else
      var s := outs[|outs| - 1];
      ReservedOuts(outs[..|outs| - 1])
      + (if s.labelled && s.state.IsPending()
         then s.fees.prepayRouting + s.fees.swapRouting + s.fees.swapFee + s.fees.minerFee else 0)
  }

  function PendingOuts(outs: seq<OutSwap>): nat {
    if outs == [] then 0
    else
      var s := outs[|outs| - 1];
      PendingOuts(outs[..|outs| - 1]) + (if s.labelled && s.state.IsPending() then 1 else 0)
  }

  function SpentIns(ins: seq<InSwap>, since: int): int {
    if ins == [] then 0
    else
      var s := ins[|ins| - 1];
      SpentIns(ins[..|ins| - 1], since)
      + (if s.labelled && s.state.IsFinal() && s.updated >= since then s.cost else 0)
  }

  /** A pending loop-in pays for its HTLC, and then either the server or the sweep. */
  function ReservedIns(ins: seq<InSwap>, sweepFee: int): int {
    if ins == [] then 0
    else
      var s := ins[|ins| - 1];
      ReservedIns(ins[..|ins| - 1], sweepFee)
      + (if s.labelled && s.state.IsPending()
         then s.fees.minerFee + (if sweepFee > s.fees.swapFee then sweepFee else s.fees.swapFee) else 0)
  }

  function PendingIns(ins: seq<InSwap>): nat {
    if ins == [] then 0
    else
      var s := ins[|ins| - 1];
      PendingIns(ins[..|ins| - 1]) + (if s.labelled && s.state.IsPending() then 1 else 0)
  }

  /** A static loop-in pays the server, or for its HTLC and the sweep of that. */
  function StaticAtMost(s: StaticSwap, sweepFee: int): int {
    var htlc := if s.storedHtlcFee.Some? then s.storedHtlcFee.value else s.defaultHtlcFee;
    if htlc + sweepFee > s.swapFee then htlc + sweepFee else s.swapFee
  }

  /** Of a failed one it is not known what it cost. */
  function SpentStatics(statics: seq<StaticSwap>, sweepFee: int, since: int): int {
    if statics == [] then 0
    else
      var s := statics[|statics| - 1];
      SpentStatics(statics[..|statics| - 1], sweepFee, since)
      + (if s.labelled && !s.pending && s.updated >= since
         then (if s.failed then StaticAtMost(s, sweepFee) else s.swapFee) else 0)
  }

  function ReservedStatics(statics: seq<StaticSwap>, sweepFee: int): int {
    if statics == [] then 0
    else
      var s := statics[|statics| - 1];
      ReservedStatics(statics[..|statics| - 1], sweepFee)
      + (if s.labelled && s.pending then StaticAtMost(s, sweepFee) else 0)
  }

  function PendingStatics(statics: seq<StaticSwap>): nat {
    if statics == [] then 0
    else
      var s := statics[|statics| - 1];
      PendingStatics(statics[..|statics| - 1]) + (if s.labelled && s.pending then 1 else 0)
  }

  function Spent(p: Params, sweepFee: int, l: Ledger): int {
    SpentOuts(l.outs, p.lastRefresh) + SpentIns(l.ins, p.lastRefresh)
    + SpentStatics(l.statics, sweepFee, p.lastRefresh)
  }

  function Reserved(sweepFee: int, l: Ledger): int {
    ReservedOuts(l.outs) + ReservedIns(l.ins, sweepFee) + ReservedStatics(l.statics, sweepFee)
  }

  function Pending(l: Ledger): nat {
    PendingOuts(l.outs) + PendingIns(l.ins) + PendingStatics(l.statics)
  }

  // ----- The planner's totals are these sums -----

  lemma {:induction false} OutBooks(p: Params, outs: seq<OutSwap>)
    ensures Sum(OutCharges(p, outs)) == SpentOuts(outs, p.lastRefresh) + ReservedOuts(outs)
    ensures Sum(OutSlots(outs)) == PendingOuts(outs)
  {
    if outs != [] {
      var init := outs[..|outs| - 1];
      OutBooks(p, init);
      assert OutCharges(p, outs)[..|init|] == OutCharges(p, init);
      assert OutSlots(outs)[..|init|] == OutSlots(init);
    }
  }

  lemma {:induction false} InBooks(p: Params, sweepFee: int, ins: seq<InSwap>)
    ensures Sum(InCharges(p, sweepFee, ins)) == SpentIns(ins, p.lastRefresh) + ReservedIns(ins, sweepFee)
    ensures Sum(InSlots(ins)) == PendingIns(ins)
  {
    if ins != [] {
      var init := ins[..|ins| - 1];
      InBooks(p, sweepFee, init);
      assert InCharges(p, sweepFee, ins)[..|init|] == InCharges(p, sweepFee, init);
      assert InSlots(ins)[..|init|] == InSlots(init);
    }
  }

  lemma {:induction false} StaticBooks(p: Params, sweepFee: int, statics: seq<StaticSwap>)
    ensures Sum(StaticCharges(p, sweepFee, statics))
         == SpentStatics(statics, sweepFee, p.lastRefresh) + ReservedStatics(statics, sweepFee)
    ensures Sum(StaticSlots(statics)) == PendingStatics(statics)
  {
    if statics != [] {
      var init := statics[..|statics| - 1];
      StaticBooks(p, sweepFee, init);
      assert StaticCharges(p, sweepFee, statics)[..|init|] == StaticCharges(p, sweepFee, init);
      assert StaticSlots(statics)[..|init|] == StaticSlots(init);
    }
  }

  /** The totals that a pass works with. */
  lemma TotalsAreBooks(p: Params, sweepFee: int, l: Ledger)
    ensures TotalFees(p, sweepFee, l) == Spent(p, sweepFee, l) + Reserved(sweepFee, l)
    ensures InFlightCount(l) == Pending(l)
  {
    OutBooks(p, l.outs);
    InBooks(p, sweepFee, l.ins);
    StaticBooks(p, sweepFee, l.statics);
  }

  // ----- One pass -----

  /** The most that a new swap may pay. */
  function AtMost(sweepFee: int, r: Request): int {
    match r
    case OutRequest(_, _, f, _) => f.prepayRouting + f.swapRouting + f.swapFee + f.minerFee
    case InRequest(_, _, f, _) => f.minerFee + (if sweepFee > f.swapFee then sweepFee else f.swapFee)
    case StaticRequest(_, s, _) => if s.htlcFee + sweepFee > s.swapFee then s.htlcFee + sweepFee else s.swapFee
  }

  function AllAtMost(sweepFee: int, rs: seq<Request>): int {
    if rs == [] then 0 else AllAtMost(sweepFee, rs[..|rs| - 1]) + AtMost(sweepFee, rs[|rs| - 1])
  }

  lemma {:induction false} FeesAtMost(sweepFee: int, rs: seq<Request>)
    ensures Fees(sweepFee, rs) == AllAtMost(sweepFee, rs)
    ensures forall r <- rs :: WorstCase(sweepFee, r) == AtMost(sweepFee, r)
  {
    if rs != [] {
      FeesAtMost(sweepFee, rs[..|rs| - 1]);
      assert rs == rs[..|rs| - 1] + [rs[|rs| - 1]];
    }
  }

  predicate HasRule(p: Params, e: Entity) {
    match e
    case PeerEntity(peer) => peer in p.peerRules
    case ChanEntity(chan) => chan in p.chanRules
  }

  /** One pass: what the planner's swaps have cost in the budget period, what the
      pending ones may cost and what the accepted ones may cost stays within the
      budget, and the pending and accepted ones are no more than allowed, whatever
      the quotes are. Nothing is accepted once the budget or the room is used up,
      and then every rule is given that reason. */
  lemma PassWithinBudget(p: Params, o: Outside, l: Ledger, channels: seq<Channel>, order: seq<Peer>)
    requires ValidRules(p) && SuggestSwaps(p, o, l, channels, order).Some?
    ensures var Suggestions(accepted, disqualified) := SuggestSwaps(p, o, l, channels, order).value;
            var used := Spent(p, o.sweepFee, l) + Reserved(o.sweepFee, l);
            && (accepted != [] ==>
                  && used + AllAtMost(o.sweepFee, accepted) <= p.budget
                  && Pending(l) + |accepted| <= p.maxInFlight)
            && (used >= p.budget ==>
                  && accepted == [] && (forall e :: e in disqualified <==> HasRule(p, e))
                  && forall e <- disqualified :: disqualified[e].BudgetElapsed?)
            && (used < p.budget && Pending(l) >= p.maxInFlight ==>
                  && accepted == [] && (forall e :: e in disqualified <==> HasRule(p, e))
                  && forall e <- disqualified :: disqualified[e].InFlight?)
  {
    TotalsAreBooks(p, o.sweepFee, l);
    PassBounded(p, o, l, channels, order);
    FeesAtMost(o.sweepFee, SuggestSwaps(p, o, l, channels, order).value.accepted);
  }

  // ----- When a pass answers -----

  /** No call to the outside breaks, whatever it is asked. */
  ghost predicate Reliable(o: Outside) {
    && !o.mayLoopOut.Broken?
    && (forall e, amount :: !o.quoteOut(e, amount).Broken?)
    && (forall e, amount :: !o.quoteIn(e, amount).Broken?)
    && (forall peer, minAmount, hint, excluded :: !o.prepare(peer, minAmount, hint, excluded).Broken?)
  }

  lemma {:induction false} CollectAnswers(p: Params, o: Outside, t: Traffic, items: seq<Item>)
    requires ValidItems(items) && Reliable(o)
    ensures Collect(p, o, t, items).Some?
  {
    if items != [] {
      CollectAnswers(p, o, t, items[..|items| - 1]);
    }
  }

  lemma {:induction false} AllocateAnswers(
      p: Params, o: Outside, known: map<ChanId, Peer>, allowed: int, start: Plan, cs: seq<Candidate>)
    requires Reliable(o)
    ensures Allocate(p, o, known, allowed, start, cs).Some?
  {
    if cs != [] {
      AllocateAnswers(p, o, known, allowed, start, cs[..|cs| - 1]);
    }
  }

  lemma RulesExist(p: Params)
    ensures p.peerRules == map[] && p.chanRules == map[] <==> |p.peerRules| + |p.chanRules| == 0
  {
  }

  lemma ConcludeAnswers(
      p: Params, o: Outside, known: map<ChanId, Peer>, total: int, inFlight: int, draft: Option<Draft>)
    requires total >= p.budget || inFlight >= p.maxInFlight || (Reliable(o) && draft.Some?)
    ensures Conclude(p, o, known, total, inFlight, draft).Some? <==> !(p.peerRules == map[] && p.chanRules == map[])
  {
    if Reliable(o) && draft.Some? {
      AllocateAnswers(p, o, known, p.maxInFlight - inFlight,
                      Plan(p.budget - total, [], draft.value.disqualified, []), Sort(draft.value.candidates));
    }
  }

  /** A pass without rules fails; one with rules answers if the budget or the room is used
      up, since it then asks nobody, or if no call breaks. */
  lemma PassAnswers(p: Params, o: Outside, l: Ledger, channels: seq<Channel>, order: seq<Peer>)
    requires ValidRules(p)
    requires || Reliable(o) || Pending(l) >= p.maxInFlight
             || Spent(p, o.sweepFee, l) + Reserved(o.sweepFee, l) >= p.budget
    ensures SuggestSwaps(p, o, l, channels, order).Some? <==> |p.peerRules| + |p.chanRules| > 0
  {
    RulesExist(p);
    TotalsAreBooks(p, o.sweepFee, l);
    ItemsValid(p, channels, order);
    if Reliable(o) {
      CollectAnswers(p, o, TrafficOf(l, o.failureCutoff), Items(p, channels, order));
    }
    ConcludeAnswers(p, o, Known(channels), TotalFees(p, o.sweepFee, l), InFlightCount(l),
                    Examined(p, o, l, channels, order));
  }
}
