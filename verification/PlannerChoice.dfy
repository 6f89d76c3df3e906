/** Where the planner's swaps come from: each accepted swap carries out a rule on the
    balances of its peer or channel, at the amount that the rule asks for, and no
    candidate is left out that there was still budget and room for. */
module PlannerChoice {
  import opened Options
  import opened Planner
  import opened PlannerBooks
  import opened PlannerPartition
  import T = Threshold

  // ----- The balances that rules are examined on -----

  /** A quantity summed over the channels with the peer, those with custom data apart. */
  function SumOver(channels: seq<Channel>, peer: Peer, quantity: Channel -> nat): nat {
    if channels == [] then 0
    else
      (if !channels[0].custom && channels[0].peer == peer then quantity(channels[0]) else 0)
      + SumOver(channels[1..], peer, quantity)
  }

  lemma {:induction false} SumOverJoins(channels: seq<Channel>, c: Channel, peer: Peer, quantity: Channel -> nat)
    ensures SumOver(channels + [c], peer, quantity) ==
            SumOver(channels, peer, quantity) + (if !c.custom && c.peer == peer then quantity(c) else 0)
  {
    if channels == [] {
      assert [] + [c] == [c] && [c][1..] == [];
    } else {
      assert (channels + [c])[1..] == channels[1..] + [c];
      SumOverJoins(channels[1..], c, peer, quantity);
    }
  }

  /** Incoming is what the peer has on its side of all its channels, outgoing is ours. */
  lemma {:induction false} PeerBalancesExactly(channels: seq<Channel>, peer: Peer)
    ensures var b := PeerBalances(channels, peer);
            && b.capacity == SumOver(channels, peer, (c: Channel) => c.capacity)
            && b.incoming == SumOver(channels, peer, (c: Channel) => c.remote)
            && b.outgoing == SumOver(channels, peer, (c: Channel) => c.local)
  {
    if channels != [] {
      var init, c := channels[..|channels| - 1], channels[|channels| - 1];
      assert channels == init + [c];
      PeerBalancesExactly(init, peer);
      SumOverJoins(init, c, peer, (c: Channel) => c.capacity);
      SumOverJoins(init, c, peer, (c: Channel) => c.remote);
      SumOverJoins(init, c, peer, (c: Channel) => c.local);
    }
  }

  /** A rule is examined on the balances of its peer over all channels, or of its channel. */
  ghost predicate OnItsBalances(p: Params, channels: seq<Channel>, item: Item) {
    item.Examine? ==>
      match item.entity
      case PeerEntity(q) =>
        && q in p.peerRules && item.rule == p.peerRules[q]
        && item.balances.capacity == SumOver(channels, q, (c: Channel) => c.capacity)
        && item.balances.incoming == SumOver(channels, q, (c: Channel) => c.remote)
        && item.balances.outgoing == SumOver(channels, q, (c: Channel) => c.local)
      case ChanEntity(x) =>
        && x in p.chanRules && item.rule == p.chanRules[x]
        && exists c <- channels ::
             c.id == x && !c.custom && item.balances == T.Balances(c.capacity, c.remote, c.local)
  }

  lemma {:induction false} PeerItemsOnBalances(p: Params, channels: seq<Channel>, order: seq<Peer>)
    ensures forall item <- PeerItems(p, channels, order) :: OnItsBalances(p, channels, item)
  {
    if order != [] {
      PeerItemsOnBalances(p, channels, order[..|order| - 1]);
      PeerBalancesExactly(channels, order[|order| - 1]);
    }
  }

  lemma {:induction false} ChanItemsOnBalances(p: Params, all: seq<Channel>, channels: seq<Channel>)
    requires forall c <- channels :: c in all
    ensures forall item <- ChanItems(p, channels) :: OnItsBalances(p, all, item)
  {
    if channels != [] {
      var c := channels[|channels| - 1];
      assert c in channels;
      ChanItemsOnBalances(p, all, channels[..|channels| - 1]);
    }
  }

  ghost predicate AllOnBalances(p: Params, channels: seq<Channel>, items: seq<Item>) {
    forall item <- items :: OnItsBalances(p, channels, item)
  }

  lemma ItemsOnBalances(p: Params, channels: seq<Channel>, order: seq<Peer>)
    ensures AllOnBalances(p, channels, Items(p, channels, order))
  {
    PeerItemsOnBalances(p, channels, order);
    ChanItemsOnBalances(p, channels, channels);
  }

  // ----- Candidates carry out rules -----

  /** The swap that the rule asks for, as quoted. */
  ghost predicate CarriesOut(p: Params, o: Outside, item: Item, c: Candidate)
    requires item.Examine? && item.rule.rule.Valid()
  {
    var Examine(entity, peer, chans, balances, rule) := item;
    match c
    case Ready(OutRequest(over, amount, fees, _)) =>
      && rule.swapType.LoopOut? && o.mayLoopOut.Got? && over == chans && amount != 0
      && amount == T.SwapAmount(rule.rule, balances, o.outLimits, T.LoopOut) && o.quoteOut(entity, amount) == Got(fees)
    case Ready(InRequest(from, amount, fees, _)) =>
      && rule.swapType.LoopIn? && !p.staticSource && from == peer && amount != 0
      && amount == T.SwapAmount(rule.rule, balances, o.inLimits, T.LoopIn) && o.quoteIn(entity, amount) == Got(fees)
    case Ready(StaticRequest(_, _, _)) => false
    case StaticCandidate(from, minAmount, hint, over) =>
      && rule.swapType.LoopIn? && p.staticSource && from == peer && over == chans && hint != 0
      && minAmount == o.inLimits.minimum && hint == T.SwapAmount(rule.rule, balances, o.inLimits, T.LoopIn)
  }

  ghost predicate FromRule(p: Params, o: Outside, items: seq<Item>, c: Candidate)
    requires ValidItems(items)
  {
    exists item <- items :: item.Examine? && CarriesOut(p, o, item, c)
  }

  lemma {:induction false} CollectFromRules(p: Params, o: Outside, t: Traffic, items: seq<Item>)
    requires ValidItems(items) && Collect(p, o, t, items).Some?
    ensures forall c <- Collect(p, o, t, items).value.candidates :: FromRule(p, o, items, c)
  {
    if items != [] {
      var init, item := items[..|items| - 1], items[|items| - 1];
      CollectFromRules(p, o, t, init);
      assert item in items && forall it <- init :: it in items;
      var before, after := Collect(p, o, t, init).value, Collect(p, o, t, items).value;
      forall c <- after.candidates
        ensures FromRule(p, o, items, c)
      {
        if c in before.candidates {
          var it :| it in init && it.Examine? && CarriesOut(p, o, it, c);
        } else {
          assert CarriesOut(p, o, item, c);
        }
      }
    }
  }

  /** An accepted swap is a candidate's, or was prepared for one. */
  ghost predicate SwapOf(p: Params, o: Outside, cs: seq<Candidate>, r: Request) {
    || Ready(r) in cs
    || (r.StaticRequest? && exists minAmount, hint, chans, excluded ::
          StaticCandidate(r.peer, minAmount, hint, chans) in cs
          && o.prepare(r.peer, minAmount, hint, excluded) == Got(r.prepared))
  }

  lemma {:induction false} AllocateFrom(
      p: Params, o: Outside, known: map<ChanId, Peer>, allowed: int, start: Plan, cs: seq<Candidate>, plan: Plan)
    requires start.accepted == [] && Allocate(p, o, known, allowed, start, cs) == Some(plan)
    ensures forall r <- plan.accepted :: SwapOf(p, o, cs, r)
  {
    if cs != [] {
      var init, c := cs[..|cs| - 1], cs[|cs| - 1];
      var before := Allocate(p, o, known, allowed, start, init).value;
      AllocateFrom(p, o, known, allowed, start, init, before);
      SwapsMore(p, o, init, c, before.accepted);
      assert cs == init + [c];
      ConsiderFrom(p, o, known, allowed, before, init, c, plan);
    }
  }

  lemma SwapsMore(p: Params, o: Outside, cs: seq<Candidate>, c: Candidate, rs: seq<Request>)
    requires forall r <- rs :: SwapOf(p, o, cs, r)
    ensures forall r <- rs :: SwapOf(p, o, cs + [c], r)
  {
    forall r <- rs
      ensures SwapOf(p, o, cs + [c], r)
    {
      if Ready(r) !in cs {
        var minAmount, hint, chans, excluded :|
          StaticCandidate(r.peer, minAmount, hint, chans) in cs
          && o.prepare(r.peer, minAmount, hint, excluded) == Got(r.prepared);
        assert StaticCandidate(r.peer, minAmount, hint, chans) in cs + [c];
      }
    }
  }

  lemma ConsiderFrom(
      p: Params, o: Outside, known: map<ChanId, Peer>, allowed: int, plan: Plan, cs: seq<Candidate>, c: Candidate,
      after: Plan)
    requires Consider(p, o, known, allowed, plan, c) == Some(after)
    requires forall r <- plan.accepted :: SwapOf(p, o, cs + [c], r)
    ensures forall r <- after.accepted :: SwapOf(p, o, cs + [c], r)
  {
    var reply := Prepare(p, o, plan.excluded, c);
    assert c in cs + [c];
    if reply.Got? {
      assert SwapOf(p, o, cs + [c], reply.value.0);
    }
  }

  // ----- Nothing is left out that would have fitted -----

  /** There was no budget or no room for the swap. */
  predicate NoRoomFor(sweepFee: int, available: int, accepted: seq<Request>, allowed: int, r: Request) {
    available == 0 || |accepted| == allowed || WorstCase(sweepFee, r) > available
  }

  lemma DecideFits(sweepFee: int, plan: Plan, allowed: int, entities: set<Entity>, r: Request)
    ensures var after := Decide(sweepFee, plan, allowed, entities, r);
            if NoRoomFor(sweepFee, plan.available, plan.accepted, allowed, r)
            then after.accepted == plan.accepted && after.available == plan.available
            else after.accepted == plan.accepted + [r] && after.available == plan.available - WorstCase(sweepFee, r)
  {
  }

  /** The budget only shrinks, and places only fill up, if no accepted swap pays us. */
  lemma ConsiderShrinks(
      p: Params, o: Outside, known: map<ChanId, Peer>, allowed: int, plan: Plan, c: Candidate, after: Plan)
    requires Consider(p, o, known, allowed, plan, c) == Some(after)
    requires forall r <- after.accepted :: WorstCase(o.sweepFee, r) >= 0
    requires 0 <= plan.available && |plan.accepted| <= allowed
    ensures 0 <= after.available <= plan.available && plan.accepted <= after.accepted && |after.accepted| <= allowed
    ensures c.Ready? && c.request !in after.accepted ==>
              NoRoomFor(o.sweepFee, after.available, after.accepted, allowed, c.request)
  {
    var reply := Prepare(p, o, plan.excluded, c);
    if reply.Got? {
      var (r, excluded) := reply.value;
      var entities := CandidateEntities(p, known, c);
      DecideFits(o.sweepFee, plan.(excluded := excluded), allowed, entities, r);
      if after.accepted != plan.accepted {
        assert r == after.accepted[|plan.accepted|];
      }
    }
  }

  lemma StillNoRoom(
      sweepFee: int, available: int, accepted: seq<Request>, available': int, accepted': seq<Request>, allowed: int,
      r: Request)
    requires NoRoomFor(sweepFee, available, accepted, allowed, r)
    requires 0 <= available' <= available && accepted <= accepted' && |accepted'| <= allowed
    ensures NoRoomFor(sweepFee, available', accepted', allowed, r)
  {
  }

  ghost predicate LeftOutForLack(sweepFee: int, plan: Plan, allowed: int, cs: seq<Candidate>) {
    forall c <- cs :: c.Ready? && c.request !in plan.accepted ==>
      NoRoomFor(sweepFee, plan.available, plan.accepted, allowed, c.request)
  }

  lemma StillLeftOut(sweepFee: int, plan: Plan, after: Plan, allowed: int, cs: seq<Candidate>)
    requires LeftOutForLack(sweepFee, plan, allowed, cs)
    requires 0 <= after.available <= plan.available && plan.accepted <= after.accepted && |after.accepted| <= allowed
    ensures LeftOutForLack(sweepFee, after, allowed, cs)
  {
    forall c | c in cs && c.Ready? && c.request !in after.accepted
      ensures NoRoomFor(sweepFee, after.available, after.accepted, allowed, c.request)
    {
      StillNoRoom(sweepFee, plan.available, plan.accepted, after.available, after.accepted, allowed, c.request);
    }
  }

  lemma {:induction false} AllocateMaximal(
      p: Params, o: Outside, known: map<ChanId, Peer>, allowed: int, start: Plan, cs: seq<Candidate>, plan: Plan)
    requires start.accepted == [] && 0 <= start.available && 0 <= allowed
    requires Allocate(p, o, known, allowed, start, cs) == Some(plan)
    requires forall r <- plan.accepted :: WorstCase(o.sweepFee, r) >= 0
    ensures 0 <= plan.available && |plan.accepted| <= allowed && LeftOutForLack(o.sweepFee, plan, allowed, cs)
  {
    if cs != [] {
      var init, c := cs[..|cs| - 1], cs[|cs| - 1];
      var before := Allocate(p, o, known, allowed, start, init).value;
      GrowsTo(p, o, known, allowed, before, c, plan);
      AllocateMaximal(p, o, known, allowed, start, init, before);
      ConsiderShrinks(p, o, known, allowed, before, c, plan);
      StillLeftOut(o.sweepFee, before, plan, allowed, init);
      assert cs == init + [c];
    }
  }

  lemma GrowsTo(p: Params, o: Outside, known: map<ChanId, Peer>, allowed: int, plan: Plan, c: Candidate, after: Plan)
    requires Consider(p, o, known, allowed, plan, c) == Some(after)
    ensures forall r <- plan.accepted :: r in after.accepted
  {
  }

  // ----- One pass -----

  /** The accepted swap carries out a rule: a loop-out over the channels of its entity
      or a loop-in from its peer, at the amount the rule asks for on the balances and
      at the fees quoted for it; a static loop-in as prepared for that. */
  ghost predicate AcceptedFor(p: Params, o: Outside, items: seq<Item>, r: Request)
    requires ValidItems(items)
  {
    exists item <- items :: item.Examine? &&
      (|| CarriesOut(p, o, item, Ready(r))
       || (r.StaticRequest? && exists hint, excluded ::
             CarriesOut(p, o, item, StaticCandidate(r.peer, o.inLimits.minimum, hint, item.chans))
             && o.prepare(r.peer, o.inLimits.minimum, hint, excluded) == Got(r.prepared)))
  }

  lemma SwapForRule(p: Params, o: Outside, items: seq<Item>, cs: seq<Candidate>, r: Request)
    requires ValidItems(items) && (forall c <- cs :: FromRule(p, o, items, c)) && SwapOf(p, o, cs, r)
    ensures AcceptedFor(p, o, items, r)
  {
    if Ready(r) in cs {
      assert FromRule(p, o, items, Ready(r));
    } else {
      var minAmount, hint, chans, excluded :|
        StaticCandidate(r.peer, minAmount, hint, chans) in cs
        && o.prepare(r.peer, minAmount, hint, excluded) == Got(r.prepared);
      var item :| item in items && item.Examine?
                  && CarriesOut(p, o, item, StaticCandidate(r.peer, minAmount, hint, chans));
    }
  }

  /** With so much budget left, and the places all taken or not, the swap does not fit. */
  predicate Lacks(sweepFee: int, left: int, full: bool, r: Request) {
    left == 0 || full || AtMost(sweepFee, r) > left
  }

  ghost predicate NoneFits(sweepFee: int, left: int, full: bool, cs: seq<Candidate>, accepted: seq<Request>) {
    forall c <- cs :: c.Ready? && c.request !in accepted ==> Lacks(sweepFee, left, full, c.request)
  }

  /** No rule came to a swap that is not accepted and fits. */
  ghost predicate RulesLack(
      p: Params, o: Outside, t: Traffic, items: seq<Item>, left: int, full: bool, accepted: seq<Request>)
    requires ValidItems(items)
  {
    forall item <- items, r ::
      item.Examine? && SuggestSwap(p, o, t, item) == Got(Ready(r)) && r !in accepted ==>
        Lacks(o.sweepFee, left, full, r)
  }

  ghost predicate AllAcceptedFor(p: Params, o: Outside, items: seq<Item>, rs: seq<Request>)
    requires ValidItems(items)
  {
    forall r <- rs :: AcceptedFor(p, o, items, r)
  }

  ghost predicate NoneNegative(sweepFee: int, rs: seq<Request>) {
    forall r <- rs :: AtMost(sweepFee, r) >= 0
  }

  lemma AcceptedForRules(
      p: Params, o: Outside, known: map<ChanId, Peer>, allowed: int, start: Plan, cs: seq<Candidate>, plan: Plan,
      items: seq<Item>)
    requires ValidItems(items) && (forall c <- cs :: FromRule(p, o, items, c)) && start.accepted == []
    requires Allocate(p, o, known, allowed, start, cs) == Some(plan)
    ensures AllAcceptedFor(p, o, items, plan.accepted)
  {
    AllocateFrom(p, o, known, allowed, start, cs, plan);
    forall r <- plan.accepted
      ensures AcceptedFor(p, o, items, r)
    {
      SwapForRule(p, o, items, cs, r);
    }
  }

  lemma NoneLeftFits(
      p: Params, o: Outside, known: map<ChanId, Peer>, allowed: int, start: Plan, cs: seq<Candidate>, plan: Plan)
    requires start.accepted == [] && 0 <= start.available && 0 <= allowed
    requires Allocate(p, o, known, allowed, start, cs) == Some(plan) && NoneNegative(o.sweepFee, plan.accepted)
    ensures NoneFits(o.sweepFee, start.available - AllAtMost(o.sweepFee, plan.accepted), |plan.accepted| == allowed,
                     cs, plan.accepted)
  {
    FeesAtMost(o.sweepFee, plan.accepted);
    AllocateBounded(p, o, known, allowed, start, cs);
    AllocateMaximal(p, o, known, allowed, start, cs, plan);
  }

  lemma {:induction false} CollectHolds(p: Params, o: Outside, t: Traffic, items: seq<Item>, item: Item)
    requires ValidItems(items) && Collect(p, o, t, items).Some?
    requires item in items && item.Examine? && SuggestSwap(p, o, t, item).Got?
    ensures SuggestSwap(p, o, t, item).value in Collect(p, o, t, items).value.candidates
  {
    var init := items[..|items| - 1];
    if item in init {
      CollectHolds(p, o, t, init, item);
    }
  }

  lemma ItemsFit(
      p: Params, o: Outside, t: Traffic, items: seq<Item>, left: int, full: bool, accepted: seq<Request>,
      cs: seq<Candidate>)
    requires ValidItems(items) && Collect(p, o, t, items).Some?
    requires NoneFits(o.sweepFee, left, full, cs, accepted)
    requires forall c :: c in cs <==> c in Collect(p, o, t, items).value.candidates
    ensures RulesLack(p, o, t, items, left, full, accepted)
  {
    forall item, r | item in items && item.Examine? && SuggestSwap(p, o, t, item) == Got(Ready(r)) && r !in accepted
      ensures Lacks(o.sweepFee, left, full, r)
    {
      CollectHolds(p, o, t, items, item);
    }
  }

  lemma AllocationChooses(
      p: Params, o: Outside, t: Traffic, known: map<ChanId, Peer>, allowed: int, items: seq<Item>,
      draft: Draft, start: Plan, plan: Plan, left: int)
    requires ValidItems(items) && 0 <= start.available && start.accepted == [] && 0 <= allowed
    requires Collect(p, o, t, items) == Some(draft)
    requires Allocate(p, o, known, allowed, start, Sort(draft.candidates)) == Some(plan)
    requires left == start.available - AllAtMost(o.sweepFee, plan.accepted)
    ensures AllAcceptedFor(p, o, items, plan.accepted)
    ensures NoneNegative(o.sweepFee, plan.accepted) ==>
              RulesLack(p, o, t, items, left, |plan.accepted| == allowed, plan.accepted)
  {
    var cs := Sort(draft.candidates);
    SortMembership(draft.candidates);
    CollectFromRules(p, o, t, items);
    AcceptedForRules(p, o, known, allowed, start, cs, plan, items);
    if NoneNegative(o.sweepFee, plan.accepted) {
      NoneLeftFits(p, o, known, allowed, start, cs, plan);
      ItemsFit(p, o, t, items, left, |plan.accepted| == allowed, plan.accepted, cs);
    }
  }

  lemma ConcludedBy(
      p: Params, o: Outside, known: map<ChanId, Peer>, total: int, inFlight: int, draft: Option<Draft>, s: Suggestions)
    returns (start: Plan, plan: Plan)
    requires total < p.budget && inFlight < p.maxInFlight && Conclude(p, o, known, total, inFlight, draft) == Some(s)
    ensures draft.Some? && start.available == p.budget - total && start.accepted == [] && plan.accepted == s.accepted
    ensures Allocate(p, o, known, p.maxInFlight - inFlight, start, Sort(draft.value.candidates)) == Some(plan)
  {
    start := Plan(p.budget - total, [], draft.value.disqualified, []);
    plan := Allocate(p, o, known, p.maxInFlight - inFlight, start, Sort(draft.value.candidates)).value;
  }

  lemma ConcludeChooses(
      p: Params, o: Outside, t: Traffic, known: map<ChanId, Peer>, total: int, inFlight: int, items: seq<Item>,
      draft: Option<Draft>, s: Suggestions, left: int)
    requires ValidItems(items) && total < p.budget && inFlight < p.maxInFlight && Collect(p, o, t, items) == draft
    requires Conclude(p, o, known, total, inFlight, draft) == Some(s)
    requires left == p.budget - total - AllAtMost(o.sweepFee, s.accepted)
    ensures AllAcceptedFor(p, o, items, s.accepted)
    ensures NoneNegative(o.sweepFee, s.accepted) ==>
              RulesLack(p, o, t, items, left, |s.accepted| == p.maxInFlight - inFlight, s.accepted)
  {
    var start, plan := ConcludedBy(p, o, known, total, inFlight, draft, s);
    AllocationChooses(p, o, t, known, p.maxInFlight - inFlight, items, draft.value, start, plan, left);
  }

  /** With the budget used so far and the swaps pending: rules are examined on the
      balances of their peer or channel, what is accepted carries out a rule, and no
      swap that a rule came to is left out if what is left of the budget would pay for it
      and there is a place, provided that no accepted swap has negative fees. */
  ghost predicate ChosenWell(
      p: Params, o: Outside, t: Traffic, channels: seq<Channel>, items: seq<Item>, used: int, pending: int,
      accepted: seq<Request>)
  {
    && ValidItems(items)
    && AllOnBalances(p, channels, items)
    && AllAcceptedFor(p, o, items, accepted)
    && (NoneNegative(o.sweepFee, accepted) ==>
          RulesLack(p, o, t, items, p.budget - used - AllAtMost(o.sweepFee, accepted),
                    |accepted| == p.maxInFlight - pending, accepted))
  }

  lemma ConcludesWell(
      p: Params, o: Outside, t: Traffic, channels: seq<Channel>, items: seq<Item>, used: int, pending: int,
      draft: Option<Draft>, s: Suggestions)
    requires ValidItems(items) && AllOnBalances(p, channels, items)
    requires used < p.budget && pending < p.maxInFlight && Collect(p, o, t, items) == draft
    requires Conclude(p, o, Known(channels), used, pending, draft) == Some(s)
    ensures ChosenWell(p, o, t, channels, items, used, pending, s.accepted)
  {
    var left := p.budget - used - AllAtMost(o.sweepFee, s.accepted);
    ConcludeChooses(p, o, t, Known(channels), used, pending, items, draft, s, left);
  }

  /** What a pass works with, in terms of the swaps themselves. */
  lemma SuggestedFrom(p: Params, o: Outside, l: Ledger, channels: seq<Channel>, order: seq<Peer>)
    requires ValidRules(p)
    ensures var used := Spent(p, o.sweepFee, l) + Reserved(o.sweepFee, l);
            SuggestSwaps(p, o, l, channels, order) ==
            Conclude(p, o, Known(channels), used, Pending(l), Examined(p, o, l, channels, order))
  {
    TotalsAreBooks(p, o.sweepFee, l);
  }

  /** One pass that has budget and room chooses well. */
  lemma PassChooses(
      p: Params, o: Outside, l: Ledger, channels: seq<Channel>, order: seq<Peer>, used: int, s: Suggestions)
    requires ValidRules(p) && SuggestSwaps(p, o, l, channels, order) == Some(s)
    requires used == Spent(p, o.sweepFee, l) + Reserved(o.sweepFee, l) < p.budget && Pending(l) < p.maxInFlight
    ensures ChosenWell(p, o, TrafficOf(l, o.failureCutoff), channels, Items(p, channels, order), used, Pending(l),
                       s.accepted)
  {
    ItemsValid(p, channels, order);
    ItemsOnBalances(p, channels, order);
    SuggestedFrom(p, o, l, channels, order);
    ConcludesWell(p, o, TrafficOf(l, o.failureCutoff), channels, Items(p, channels, order), used, Pending(l),
                  Examined(p, o, l, channels, order), s);
  }
}
