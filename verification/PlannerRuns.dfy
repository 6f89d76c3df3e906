/** The planner tick after tick: what it dispatches is fed back to it as pending
    swaps, while existing swaps progress and the budget is refreshed. */
module PlannerRuns {
  import opened Options
  import opened SwapStates
  import opened Planner
  import opened PlannerBooks
  import opened PlannerChoice
  import opened PlannerPartition
  import T = Threshold

  // ----- Accepted swaps keep clear of existing ones -----

  lemma SplitMembers(chans: seq<ChanId>)
    requires chans != []
    ensures forall x: ChanId :: x in chans <==> x == chans[0] || x in chans[1..]
  {
    assert chans == [chans[0]] + chans[1..];
  }

  lemma {:induction false} InUseOutExactly(t: Traffic, peer: Peer, chans: seq<ChanId>)
    ensures InUseOut(t, peer, chans).None? <==>
              (forall x <- chans :: x !in t.failedOut && x !in t.ongoingOut) && peer !in t.ongoingIn
  {
    if chans != [] {
      InUseOutExactly(t, peer, chans[1..]);
      SplitMembers(chans);
      var first: ChanId := chans[0];
      assert first in chans;
    }
  }

  lemma {:induction false} InUseInExactly(t: Traffic, peer: Peer, chans: seq<ChanId>)
    ensures InUseIn(t, peer, chans).None? <==>
              (forall x <- chans :: x !in t.ongoingOut) && peer !in t.ongoingIn && peer !in t.failedIn
  {
    if chans != [] {
      InUseInExactly(t, peer, chans[1..]);
      SplitMembers(chans);
      var first: ChanId := chans[0];
      assert first in chans;
    }
  }

  /** No loop-out is under way over a channel of the peer. */
  ghost predicate NoLoopOut(t: Traffic, known: map<ChanId, Peer>, peer: Peer) {
    forall x <- known :: known[x] == peer ==> x !in t.ongoingOut
  }

  ghost predicate PeerClear(t: Traffic, known: map<ChanId, Peer>, peer: Peer) {
    peer !in t.ongoingIn && peer !in t.failedIn && NoLoopOut(t, known, peer)
  }

  /** The swap uses nothing that an ongoing or recently failed swap of concern uses. */
  ghost predicate Clear(t: Traffic, known: map<ChanId, Peer>, r: Request) {
    match r
    case OutRequest(chans, _, _, _) =>
      (forall x <- chans :: x !in t.failedOut && x !in t.ongoingOut) && RequestPeers(known, r) !! t.ongoingIn
    case InRequest(peer, _, _, _) => PeerClear(t, known, peer)
    case StaticRequest(peer, _, _) => PeerClear(t, known, peer)
  }

  /** No loop-in from the peer is under way, other than one that is as good as paid. */
  ghost predicate NoLoopIn(l: Ledger, peer: Peer) {
    && (forall s <- l.ins :: s.lastHop == Some(peer) && s.state.IsPending() ==> s.state.InvoiceSettled?)
    && (forall s <- l.statics :: s.lastHop == Some(peer) && s.pending ==> !s.blocks)
  }

  /** No loop-in from the peer failed after the cutoff. */
  ghost predicate NoFailedLoopIn(l: Ledger, cutoff: int, peer: Peer) {
    && (forall s <- l.ins :: s.lastHop == Some(peer) && s.state.FailTimeout? ==> s.updated <= cutoff)
    && (forall s <- l.statics ::
          s.lastHop == Some(peer) && s.failed && !(s.pending && s.blocks) ==> s.updated <= cutoff)
  }

  /** A loop-out over the channels keeps clear of the channels of every loop-out that
      is pending or failed to pay after the cutoff, and of peers with a loop-in. */
  ghost predicate OutKeepsClear(l: Ledger, cutoff: int, known: map<ChanId, Peer>, chans: seq<ChanId>) {
    && (forall s <- l.outs ::
          s.state.IsPending() || (s.state.FailOffchainPayments? && s.updated > cutoff) ==>
            forall x <- s.chans :: x !in chans)
    && (forall x <- chans :: x in known ==> NoLoopIn(l, known[x]))
  }

  /** A loop-in from the peer keeps clear of its other loop-ins, and of pending
      loop-outs over its channels. */
  ghost predicate InKeepsClear(l: Ledger, cutoff: int, known: map<ChanId, Peer>, peer: Peer) {
    && NoLoopIn(l, peer) && NoFailedLoopIn(l, cutoff, peer)
    && (forall s <- l.outs :: s.state.IsPending() ==> forall x <- s.chans :: x in known ==> known[x] != peer)
  }

  ghost predicate KeepsClear(l: Ledger, cutoff: int, known: map<ChanId, Peer>, r: Request) {
    match r
    case OutRequest(chans, _, _, _) => OutKeepsClear(l, cutoff, known, chans)
    case InRequest(peer, _, _, _) => InKeepsClear(l, cutoff, known, peer)
    case StaticRequest(peer, _, _) => InKeepsClear(l, cutoff, known, peer)
  }

  lemma OngoingInExactly(l: Ledger, cutoff: int, peer: Peer)
    ensures peer !in TrafficOf(l, cutoff).ongoingIn <==> NoLoopIn(l, peer)
  {
    if peer !in TrafficOf(l, cutoff).ongoingIn {
      assert peer !in OngoingInPeers(l.ins) && peer !in OngoingStaticPeers(l.statics);
    }
  }

  lemma FailedInExactly(l: Ledger, cutoff: int, peer: Peer)
    ensures peer !in TrafficOf(l, cutoff).failedIn <==> NoFailedLoopIn(l, cutoff, peer)
  {
    if peer !in TrafficOf(l, cutoff).failedIn {
      assert peer !in FailedInPeers(l.ins, cutoff) && peer !in FailedStaticPeers(l.statics, cutoff);
    }
  }

  lemma OutChansExactly(l: Ledger, cutoff: int, chans: seq<ChanId>)
    ensures (forall x <- chans :: x !in TrafficOf(l, cutoff).failedOut && x !in TrafficOf(l, cutoff).ongoingOut) <==>
              forall s <- l.outs ::
                s.state.IsPending() || (s.state.FailOffchainPayments? && s.updated > cutoff) ==>
                  forall x <- s.chans :: x !in chans
  {
    var t := TrafficOf(l, cutoff);
    if forall x <- chans :: x !in t.failedOut && x !in t.ongoingOut {
      forall s, x |
        && s in l.outs && x in s.chans
        && (s.state.IsPending() || (s.state.FailOffchainPayments? && s.updated > cutoff))
        ensures x !in chans
      {
        assert x in FailedOutChans(l.outs, cutoff) || x in OngoingOutChans(l.outs);
      }
    }
  }

  lemma NoLoopOutExactly(l: Ledger, cutoff: int, known: map<ChanId, Peer>, peer: Peer)
    ensures NoLoopOut(TrafficOf(l, cutoff), known, peer) <==>
              forall s <- l.outs :: s.state.IsPending() ==> forall x <- s.chans :: x in known ==> known[x] != peer
  {
    if NoLoopOut(TrafficOf(l, cutoff), known, peer) {
      forall s, x | s in l.outs && s.state.IsPending() && x in s.chans && x in known
        ensures known[x] != peer
      {
        assert x in OngoingOutChans(l.outs);
      }
    }
  }

  lemma OutClearExactly(l: Ledger, cutoff: int, known: map<ChanId, Peer>, r: Request)
    requires r.OutRequest? && forall x <- r.chans :: x in known
    ensures Clear(TrafficOf(l, cutoff), known, r) <==> OutKeepsClear(l, cutoff, known, r.chans)
  {
    var t := TrafficOf(l, cutoff);
    OutChansExactly(l, cutoff, r.chans);
    forall x <- r.chans
      ensures known[x] in RequestPeers(known, r)
      ensures known[x] !in t.ongoingIn <==> NoLoopIn(l, known[x])
    {
      OngoingInExactly(l, cutoff, known[x]);
    }
    if RequestPeers(known, r) !! t.ongoingIn {
      assert forall x <- r.chans :: known[x] !in t.ongoingIn;
    } else {
      var q :| q in RequestPeers(known, r) && q in t.ongoingIn;
    }
  }

  lemma InClearExactly(l: Ledger, cutoff: int, known: map<ChanId, Peer>, peer: Peer)
    ensures PeerClear(TrafficOf(l, cutoff), known, peer) <==> InKeepsClear(l, cutoff, known, peer)
  {
    OngoingInExactly(l, cutoff, peer);
    FailedInExactly(l, cutoff, peer);
    NoLoopOutExactly(l, cutoff, known, peer);
  }

  /** What a request keeps clear of, in terms of the swaps themselves. */
  lemma ClearExactly(l: Ledger, cutoff: int, known: map<ChanId, Peer>, r: Request)
    requires r.OutRequest? ==> forall x <- r.chans :: x in known
    ensures Clear(TrafficOf(l, cutoff), known, r) <==> KeepsClear(l, cutoff, known, r)
  {
    match r
    case OutRequest(_, _, _, _) => OutClearExactly(l, cutoff, known, r);
    case InRequest(peer, _, _, _) => InClearExactly(l, cutoff, known, peer);
    case StaticRequest(peer, _, _) => InClearExactly(l, cutoff, known, peer);
  }

  ghost predicate ClearCandidate(t: Traffic, known: map<ChanId, Peer>, c: Candidate) {
    match c
    case Ready(r) => Clear(t, known, r)
    case StaticCandidate(peer, _, _, _) => PeerClear(t, known, peer)
  }

  ghost predicate LabelledAs(p: Params, c: Candidate) {
    c.Ready? ==> c.request.labelled == p.autoloop && !c.request.StaticRequest?
  }

  lemma ItemPeers(p: Params, known: map<ChanId, Peer>, item: Item, r: Request)
    requires item.Examine? && ItemOk(p, known, item) && r.OutRequest? && r.chans == item.chans
    ensures RequestPeers(known, r) <= {item.peer}
  {
  }

  lemma SuggestedClear(p: Params, o: Outside, t: Traffic, known: map<ChanId, Peer>, item: Item)
    requires item.Examine? && item.rule.rule.Valid() && ItemOk(p, known, item) && SuggestSwap(p, o, t, item).Got?
    ensures var c := SuggestSwap(p, o, t, item).value; ClearCandidate(t, known, c) && LabelledAs(p, c)
  {
    InUseOutExactly(t, item.peer, item.chans);
    InUseInExactly(t, item.peer, item.chans);
    var c := SuggestSwap(p, o, t, item).value;
    if c.Ready? && c.request.OutRequest? {
      ItemPeers(p, known, item, c.request);
    }
  }

  lemma {:induction false} CollectClear(p: Params, o: Outside, t: Traffic, known: map<ChanId, Peer>, items: seq<Item>)
    requires ValidItems(items) && (forall item <- items :: ItemOk(p, known, item)) && Collect(p, o, t, items).Some?
    ensures forall c <- Collect(p, o, t, items).value.candidates :: ClearCandidate(t, known, c) && LabelledAs(p, c)
  {
    if items != [] {
      var item := items[|items| - 1];
      assert item in items;
      CollectClear(p, o, t, known, items[..|items| - 1]);
      if item.Examine? && SuggestSwap(p, o, t, item).Got? {
        SuggestedClear(p, o, t, known, item);
      }
    }
  }

  lemma {:induction false} AllocateClear(
      p: Params, o: Outside, t: Traffic, known: map<ChanId, Peer>, allowed: int, start: Plan, cs: seq<Candidate>)
    requires start.accepted == [] && forall c <- cs :: ClearCandidate(t, known, c) && LabelledAs(p, c)
    requires Allocate(p, o, known, allowed, start, cs).Some?
    ensures forall r <- Allocate(p, o, known, allowed, start, cs).value.accepted ::
              Clear(t, known, r) && r.labelled == p.autoloop
  {
    if cs != [] {
      AllocateClear(p, o, t, known, allowed, start, cs[..|cs| - 1]);
      var c := cs[|cs| - 1];
      assert c in cs;
    }
  }

  // ----- Accepted swaps keep clear of each other -----

  /** A candidate adds at most its own swap. */
  lemma ConsiderAccepts(p: Params, o: Outside, known: map<ChanId, Peer>, allowed: int, plan: Plan, c: Candidate)
    requires Consider(p, o, known, allowed, plan, c).Some?
    ensures var after := Consider(p, o, known, allowed, plan, c).value;
            var reply := Prepare(p, o, plan.excluded, c);
            && after.excluded == (if reply.Got? then reply.value.1 else plan.excluded)
            && (|| after.accepted == plan.accepted
                || (reply.Got? && after.accepted == plan.accepted + [reply.value.0]))
  {
  }

  ghost predicate ChansApart(rs: seq<Request>) {
    forall i, j :: 0 <= i < j < |rs| ==> RequestChans(rs[i]) !! RequestChans(rs[j])
  }

  ghost predicate From(cs: seq<Candidate>, r: Request) {
    exists c <- cs :: RequestChans(r) <= CandidateChans(c)
  }

  lemma PreparedFrom(p: Params, o: Outside, excluded: seq<Outpoint>, c: Candidate)
    requires Prepare(p, o, excluded, c).Got?
    ensures RequestChans(Prepare(p, o, excluded, c).value.0) <= CandidateChans(c)
  {
  }

  lemma FootprintsApart(p: Params, known: map<ChanId, Peer>, a: Candidate, b: Candidate)
    requires Footprint(p, known, a) !! Footprint(p, known, b)
    ensures CandidateChans(a) !! CandidateChans(b)
  {
    forall x <- CandidateChans(a)
      ensures x !in CandidateChans(b)
    {
      assert ChanEntity(x) in Footprint(p, known, a);
    }
  }

  lemma NewApart(p: Params, known: map<ChanId, Peer>, cs: seq<Candidate>, c: Candidate, rs: seq<Request>, r: Request)
    requires Apart(p, known, cs + [c]) && ChansApart(rs) && forall q <- rs :: From(cs, q)
    requires RequestChans(r) <= CandidateChans(c)
    ensures ChansApart(rs + [r])
  {
    forall q <- rs
      ensures RequestChans(q) !! RequestChans(r)
    {
      var d :| d in cs && RequestChans(q) <= CandidateChans(d);
      var i :| 0 <= i < |cs| && cs[i] == d;
      assert (cs + [c])[i] == d && (cs + [c])[|cs|] == c;
      FootprintsApart(p, known, d, c);
    }
  }

  lemma FromMore(cs: seq<Candidate>, c: Candidate, rs: seq<Request>)
    requires forall q <- rs :: From(cs, q)
    ensures forall q <- rs :: From(cs + [c], q)
  {
  }

  ghost predicate ApartFrom(cs: seq<Candidate>, rs: seq<Request>) {
    ChansApart(rs) && forall r <- rs :: From(cs, r)
  }

  lemma AcceptApart(p: Params, known: map<ChanId, Peer>, cs: seq<Candidate>, c: Candidate, rs: seq<Request>, r: Request)
    requires Apart(p, known, cs + [c]) && ApartFrom(cs, rs) && RequestChans(r) <= CandidateChans(c)
    ensures ApartFrom(cs + [c], rs + [r])
  {
    NewApart(p, known, cs, c, rs, r);
    FromMore(cs, c, rs);
    assert c in cs + [c];
    assert From(cs + [c], r);
  }

  lemma ConsiderApart(
      p: Params, o: Outside, known: map<ChanId, Peer>, allowed: int, plan: Plan, cs: seq<Candidate>, c: Candidate,
      after: Plan)
    requires Apart(p, known, cs + [c]) && ApartFrom(cs, plan.accepted)
    requires Consider(p, o, known, allowed, plan, c) == Some(after)
    ensures ApartFrom(cs + [c], after.accepted)
  {
    ConsiderAccepts(p, o, known, allowed, plan, c);
    FromMore(cs, c, plan.accepted);
    var reply := Prepare(p, o, plan.excluded, c);
    if reply.Got? {
      PreparedFrom(p, o, plan.excluded, c);
      AcceptApart(p, known, cs, c, plan.accepted, reply.value.0);
    }
  }

  lemma ApartBefore(p: Params, known: map<ChanId, Peer>, cs: seq<Candidate>, c: Candidate)
    requires Apart(p, known, cs + [c])
    ensures Apart(p, known, cs)
  {
    var all := cs + [c];
    forall i, j | 0 <= i < j < |cs|
      ensures Footprint(p, known, cs[i]) !! Footprint(p, known, cs[j])
    {
      assert Footprint(p, known, all[i]) !! Footprint(p, known, all[j]);
    }
  }

  lemma StartApart(rs: seq<Request>)
    requires rs == []
    ensures ApartFrom([], rs)
  {
  }

  lemma {:induction false} AllocateApart(
      p: Params, o: Outside, known: map<ChanId, Peer>, allowed: int, start: Plan, cs: seq<Candidate>, plan: Plan)
    requires start.accepted == [] && Apart(p, known, cs)
    requires Allocate(p, o, known, allowed, start, cs) == Some(plan)
    ensures ApartFrom(cs, plan.accepted)
  {
    if cs == [] {
      StartApart(plan.accepted);
    } else {
      var init, c := cs[..|cs| - 1], cs[|cs| - 1];
      assert cs == init + [c];
      ApartBefore(p, known, init, c);
      var before := Allocate(p, o, known, allowed, start, init).value;
      AllocateApart(p, o, known, allowed, start, init, before);
      ConsiderApart(p, o, known, allowed, before, init, c, plan);
    }
  }

  /** The preparer never selects an excluded deposit. */
  ghost predicate HonoursExclusions(o: Outside) {
    forall peer, minAmount, hint, excluded ::
      var reply := o.prepare(peer, minAmount, hint, excluded);
      reply.Got? ==> forall d <- reply.value.deposits :: d !in excluded
  }

  ghost function Deposits(r: Request): set<Outpoint> {
    if r.StaticRequest? then set d | d in r.prepared.deposits else {}
  }

  ghost predicate DepositsApart(rs: seq<Request>, excluded: seq<Outpoint>) {
    && (forall i, j :: 0 <= i < j < |rs| ==> Deposits(rs[i]) !! Deposits(rs[j]))
    && (forall r <- rs :: forall d <- Deposits(r) :: d in excluded)
  }

  lemma DepositsGrow(rs: seq<Request>, excluded: seq<Outpoint>, r: Request, more: seq<Outpoint>)
    requires DepositsApart(rs, excluded)
    requires forall d <- Deposits(r) :: d !in excluded && d in more
    ensures DepositsApart(rs + [r], excluded + more)
  {
    forall q <- rs
      ensures Deposits(q) !! Deposits(r)
    {
      forall d <- Deposits(q)
        ensures d !in Deposits(r)
      {
        assert d in excluded;
      }
    }
    forall q <- rs + [r]
      ensures forall d <- Deposits(q) :: d in excluded + more
    {
    }
  }

  lemma {:induction false} AllocateDeposits(
      p: Params, o: Outside, known: map<ChanId, Peer>, allowed: int, start: Plan, cs: seq<Candidate>)
    requires start.accepted == [] && HonoursExclusions(o)
    requires forall c <- cs :: c.Ready? ==> !c.request.StaticRequest?
    requires Allocate(p, o, known, allowed, start, cs).Some?
    ensures var plan := Allocate(p, o, known, allowed, start, cs).value; DepositsApart(plan.accepted, plan.excluded)
  {
    if cs != [] {
      var init, c := cs[..|cs| - 1], cs[|cs| - 1];
      AllocateDeposits(p, o, known, allowed, start, init);
      var before := Allocate(p, o, known, allowed, start, init).value;
      ConsiderAccepts(p, o, known, allowed, before, c);
      assert c in cs;
      if c.StaticCandidate? {
        var reply := o.prepare(c.peer, c.minAmount, c.amountHint, before.excluded);
        if reply.Got? {
          DepositsGrow(before.accepted, before.excluded, StaticRequest(c.peer, reply.value, p.autoloop),
                       reply.value.deposits);
        }
      } else {
        DepositsGrow(before.accepted, before.excluded, c.request, []);
        assert before.excluded + [] == before.excluded;
      }
    }
  }

  // ----- One pass -----

  ghost predicate WellFormed(p: Params, channels: seq<Channel>, order: seq<Peer>) {
    ValidRules(p) && UniqueIds(channels) && ExclusiveRules(p, channels) && Enumerates(order, Peers(channels))
  }

  lemma FillSeparate(
      p: Params, o: Outside, t: Traffic, known: map<ChanId, Peer>, available: int, allowed: int, draft: Draft)
    requires Apart(p, known, draft.candidates)
    requires forall c <- draft.candidates :: ClearCandidate(t, known, c) && LabelledAs(p, c)
    requires Fill(p, o, known, available, allowed, draft).Some?
    ensures var accepted := Fill(p, o, known, available, allowed, draft).value.accepted;
            && (forall r <- accepted :: Clear(t, known, r) && r.labelled == p.autoloop)
            && ChansApart(accepted)
            && (HonoursExclusions(o) ==>
                  forall i, j :: 0 <= i < j < |accepted| ==> Deposits(accepted[i]) !! Deposits(accepted[j]))
  {
    var start := Plan(available, [], draft.disqualified, []);
    var cs := Sort(draft.candidates);
    SortMembership(draft.candidates);
    SortApart(p, known, draft.candidates);
    AllocateClear(p, o, t, known, allowed, start, cs);
    AllocateApart(p, o, known, allowed, start, cs, Allocate(p, o, known, allowed, start, cs).value);
    if HonoursExclusions(o) {
      AllocateDeposits(p, o, known, allowed, start, cs);
    }
  }

  /** One pass: an accepted loop-out uses no channel that an ongoing loop-out or a
      recently failed one uses, and no peer with an ongoing loop-in; an accepted
      loop-in uses no peer that an ongoing or recently failed loop-in uses, or over
      whose channels a loop-out is under way; no two accepted swaps share a channel; and no
      two share a deposit, if the preparer honours exclusions. */
  lemma PassSeparate(
      p: Params, o: Outside, l: Ledger, channels: seq<Channel>, order: seq<Peer>)
    requires WellFormed(p, channels, order)
    requires SuggestSwaps(p, o, l, channels, order).Some?
    ensures var accepted := SuggestSwaps(p, o, l, channels, order).value.accepted;
            && (forall r <- accepted :: KeepsClear(l, o.failureCutoff, Known(channels), r) && r.labelled == p.autoloop)
            && ChansApart(accepted)
            && (HonoursExclusions(o) ==>
                  forall i, j :: 0 <= i < j < |accepted| ==> Deposits(accepted[i]) !! Deposits(accepted[j]))
  {
    PassClear(p, o, l, channels, order);
    var accepted := SuggestSwaps(p, o, l, channels, order).value.accepted;
    if accepted != [] {
      AcceptedKnown(p, o, l, channels, order);
      forall r <- accepted
        ensures KeepsClear(l, o.failureCutoff, Known(channels), r)
      {
        ClearExactly(l, o.failureCutoff, Known(channels), r);
      }
    }
  }

  lemma OverKnown(p: Params, o: Outside, known: map<ChanId, Peer>, items: seq<Item>, r: Request)
    requires ValidItems(items) && AcceptedFor(p, o, items, r) && forall item <- items :: ItemOk(p, known, item)
    ensures r.OutRequest? ==> forall x <- r.chans :: x in known
  {
    if r.OutRequest? {
      var item :| item in items && item.Examine? && CarriesOut(p, o, item, Ready(r));
    }
  }

  /** Loop-outs are accepted over known channels only. */
  lemma AcceptedKnown(p: Params, o: Outside, l: Ledger, channels: seq<Channel>, order: seq<Peer>)
    requires WellFormed(p, channels, order) && SuggestSwaps(p, o, l, channels, order).Some?
    ensures forall r <- SuggestSwaps(p, o, l, channels, order).value.accepted ::
              r.OutRequest? ==> forall x <- r.chans :: x in Known(channels)
  {
    var s := SuggestSwaps(p, o, l, channels, order).value;
    var accepted := s.accepted;
    PassWithinBudget(p, o, l, channels, order);
    if accepted != [] {
      PassChooses(p, o, l, channels, order, Spent(p, o.sweepFee, l) + Reserved(o.sweepFee, l), s);
      ItemsOk(p, channels, order);
      forall r <- accepted
        ensures r.OutRequest? ==> forall x <- r.chans :: x in Known(channels)
      {
        OverKnown(p, o, Known(channels), Items(p, channels, order), r);
      }
    }
  }

  /** What becomes of a loop-out rule, in terms of the swaps themselves: it waits for
      others if and only if its swap would not keep clear of them, and otherwise its
      amount and the quote decide. */
  lemma OutRuleExactly(p: Params, o: Outside, l: Ledger, known: map<ChanId, Peer>, item: Item)
    requires item.Examine? && item.rule.rule.Valid() && ItemOk(p, known, item)
    requires item.rule.swapType.LoopOut? && o.mayLoopOut.Got?
    ensures var reply := SuggestSwap(p, o, TrafficOf(l, o.failureCutoff), item);
            var amount := T.SwapAmount(item.rule.rule, item.balances, o.outLimits, T.LoopOut);
            if !OutKeepsClear(l, o.failureCutoff, known, item.chans) then reply.Refused? && Waits(Some(reply.reason))
            else if amount == 0 then reply == Refused(LiquidityOk)
            else match o.quoteOut(item.entity, amount)
              case Got(fees) => reply == Got(Ready(OutRequest(item.chans, amount, fees, p.autoloop)))
              case Refused(reason) => reply == Refused(reason)
              case Broken => reply == Broken
  {
    OutItemExactly(p, l, o.failureCutoff, known, item);
  }

  /** The same for a loop-in rule that is not served from a static address. */
  lemma InRuleExactly(p: Params, o: Outside, l: Ledger, known: map<ChanId, Peer>, item: Item)
    requires item.Examine? && item.rule.rule.Valid() && ItemOk(p, known, item)
    requires item.rule.swapType.LoopIn? && !p.staticSource
    ensures var reply := SuggestSwap(p, o, TrafficOf(l, o.failureCutoff), item);
            var amount := T.SwapAmount(item.rule.rule, item.balances, o.inLimits, T.LoopIn);
            if !InKeepsClear(l, o.failureCutoff, known, item.peer) then reply.Refused? && Waits(Some(reply.reason))
            else if amount == 0 then reply == Refused(LiquidityOk)
            else match o.quoteIn(item.entity, amount)
              case Got(fees) => reply == Got(Ready(InRequest(item.peer, amount, fees, p.autoloop)))
              case Refused(reason) => reply == Refused(reason)
              case Broken => reply == Broken
  {
    InItemExactly(p, l, o.failureCutoff, known, item);
  }

  predicate Waits(reason: Option<Reason>) {
    reason.Some? && (reason.value.FailureBackoff? || reason.value.OngoingLoopOut? || reason.value.OngoingLoopIn?)
  }

  lemma {:induction false} InUseReasons(t: Traffic, peer: Peer, chans: seq<ChanId>)
    ensures InUseOut(t, peer, chans).Some? ==> Waits(InUseOut(t, peer, chans))
    ensures InUseIn(t, peer, chans).Some? ==> Waits(InUseIn(t, peer, chans))
  {
    if chans != [] {
      InUseReasons(t, peer, chans[1..]);
    }
  }

  lemma OutItemExactly(p: Params, l: Ledger, cutoff: int, known: map<ChanId, Peer>, item: Item)
    requires item.Examine? && ItemOk(p, known, item)
    ensures var reason := InUseOut(TrafficOf(l, cutoff), item.peer, item.chans);
            if OutKeepsClear(l, cutoff, known, item.chans) then reason.None? else Waits(reason)
  {
    var t := TrafficOf(l, cutoff);
    InUseReasons(t, item.peer, item.chans);
    InUseOutExactly(t, item.peer, item.chans);
    OutChansExactly(l, cutoff, item.chans);
    OngoingInExactly(l, cutoff, item.peer);
    var first: ChanId := item.chans[0];
    assert first in item.chans && known[first] == item.peer;
  }

  lemma InItemExactly(p: Params, l: Ledger, cutoff: int, known: map<ChanId, Peer>, item: Item)
    requires item.Examine? && ItemOk(p, known, item) && item.rule.swapType.LoopIn?
    ensures var reason := InUseIn(TrafficOf(l, cutoff), item.peer, item.chans);
            if InKeepsClear(l, cutoff, known, item.peer) then reason.None? else Waits(reason)
  {
    var t := TrafficOf(l, cutoff);
    InUseReasons(t, item.peer, item.chans);
    InUseInExactly(t, item.peer, item.chans);
    InClearExactly(l, cutoff, known, item.peer);
    assert NoLoopOut(t, known, item.peer) <==> forall x <- item.chans :: x !in t.ongoingOut;
  }

  lemma PassClear(p: Params, o: Outside, l: Ledger, channels: seq<Channel>, order: seq<Peer>)
    requires WellFormed(p, channels, order)
    requires SuggestSwaps(p, o, l, channels, order).Some?
    ensures var accepted := SuggestSwaps(p, o, l, channels, order).value.accepted;
            && (forall r <- accepted ::
                  Clear(TrafficOf(l, o.failureCutoff), Known(channels), r) && r.labelled == p.autoloop)
            && ChansApart(accepted)
            && (HonoursExclusions(o) ==>
                  forall i, j :: 0 <= i < j < |accepted| ==> Deposits(accepted[i]) !! Deposits(accepted[j]))
  {
    var t := TrafficOf(l, o.failureCutoff);
    var draft := Examined(p, o, l, channels, order);
    DraftSeparate(p, o, t, channels, order, draft);
    SeparateBy(p, o, t, Known(channels), TotalFees(p, o.sweepFee, l), InFlightCount(l), draft);
  }

  ghost predicate SeparateDraft(p: Params, t: Traffic, known: map<ChanId, Peer>, draft: Draft) {
    && Apart(p, known, draft.candidates)
    && (forall c <- draft.candidates :: ClearCandidate(t, known, c) && LabelledAs(p, c))
  }

  lemma DraftSeparate(p: Params, o: Outside, t: Traffic, channels: seq<Channel>, order: seq<Peer>, draft: Option<Draft>)
    requires WellFormed(p, channels, order)
    requires draft == (ItemsValid(p, channels, order); Collect(p, o, t, Items(p, channels, order)))
    ensures draft.Some? ==> SeparateDraft(p, t, Known(channels), draft.value)
  {
    var items := Items(p, channels, order);
    ItemsValid(p, channels, order);
    ItemsOk(p, channels, order);
    if draft.Some? {
      CollectOk(p, o, t, Known(channels), items);
      CollectClear(p, o, t, Known(channels), items);
    }
  }

  lemma SeparateBy(
      p: Params, o: Outside, t: Traffic, known: map<ChanId, Peer>, total: int, inFlight: int, draft: Option<Draft>)
    requires draft.Some? ==> SeparateDraft(p, t, known, draft.value)
    requires Conclude(p, o, known, total, inFlight, draft).Some?
    ensures var accepted := Conclude(p, o, known, total, inFlight, draft).value.accepted;
            && (forall r <- accepted :: Clear(t, known, r) && r.labelled == p.autoloop)
            && ChansApart(accepted)
            && (HonoursExclusions(o) ==>
                  forall i, j :: 0 <= i < j < |accepted| ==> Deposits(accepted[i]) !! Deposits(accepted[j]))
  {
    if Open(p, total, inFlight) {
      FillSeparate(p, o, t, known, p.budget - total, p.maxInFlight - inFlight, draft.value);
    }
  }

  // ----- Dispatch -----

  /** A dispatched swap is stored with the fees of its request. */
  function Dispatched(l: Ledger, r: Request, now: int): Ledger {
    match r
    case OutRequest(chans, _, f, labelled) => l.(outs := l.outs + [OutSwap(chans, f, labelled, Initiated, 0, now)])
    case InRequest(peer, _, f, labelled) => l.(ins := l.ins + [InSwap(Some(peer), f, labelled, Initiated, 0, now)])
    case StaticRequest(peer, s, labelled) =>
      l.(statics := l.statics + [StaticSwap(Some(peer), s.swapFee, s.htlcFee, None, labelled, true, false, true, now)])
  }

  function Dispatch(l: Ledger, rs: seq<Request>, now: int): Ledger {
    if rs == [] then l else Dispatched(Dispatch(l, rs[..|rs| - 1], now), rs[|rs| - 1], now)
  }

  /** A dispatched swap reserves its fees and takes a place, and nothing is spent on it yet. */
  lemma DispatchedCharges(p: Params, sweepFee: int, l: Ledger, r: Request, now: int)
    requires r.labelled
    ensures var l' := Dispatched(l, r, now);
            && Spent(p, sweepFee, l') == Spent(p, sweepFee, l)
            && Reserved(sweepFee, l') == Reserved(sweepFee, l) + AtMost(sweepFee, r)
            && Pending(l') == Pending(l) + 1
  {
    var l' := Dispatched(l, r, now);
    match r
    case OutRequest(_, _, _, _) => OutAdded(l.outs, l'.outs[|l.outs|], p.lastRefresh);
    case InRequest(_, _, _, _) => InAdded(l.ins, l'.ins[|l.ins|], sweepFee, p.lastRefresh);
    case StaticRequest(_, _, _) => StaticAdded(l.statics, l'.statics[|l.statics|], sweepFee, p.lastRefresh);
  }

  lemma OutAdded(outs: seq<OutSwap>, s: OutSwap, since: int)
    requires s.labelled && s.state.IsPending()
    ensures var more := outs + [s];
            && SpentOuts(more, since) == SpentOuts(outs, since) && PendingOuts(more) == PendingOuts(outs) + 1
            && ReservedOuts(more) == ReservedOuts(outs) + s.fees.prepayRouting + s.fees.swapRouting
                                     + s.fees.swapFee + s.fees.minerFee
  {
    assert (outs + [s])[..|outs|] == outs;
  }

  lemma InAdded(ins: seq<InSwap>, s: InSwap, sweepFee: int, since: int)
    requires s.labelled && s.state.IsPending()
    ensures var more := ins + [s];
            && SpentIns(more, since) == SpentIns(ins, since) && PendingIns(more) == PendingIns(ins) + 1
            && ReservedIns(more, sweepFee) == ReservedIns(ins, sweepFee) + s.fees.minerFee
                                              + (if sweepFee > s.fees.swapFee then sweepFee else s.fees.swapFee)
  {
    assert (ins + [s])[..|ins|] == ins;
  }

  lemma StaticAdded(statics: seq<StaticSwap>, s: StaticSwap, sweepFee: int, since: int)
    requires s.labelled && s.pending
    ensures var more := statics + [s];
            && SpentStatics(more, sweepFee, since) == SpentStatics(statics, sweepFee, since)
            && PendingStatics(more) == PendingStatics(statics) + 1
            && ReservedStatics(more, sweepFee) == ReservedStatics(statics, sweepFee) + StaticAtMost(s, sweepFee)
  {
    assert (statics + [s])[..|statics|] == statics;
  }

  /** The next pass reserves for the dispatched swaps exactly what this one did. */
  lemma {:induction false} DispatchCharges(p: Params, sweepFee: int, l: Ledger, rs: seq<Request>, now: int)
    requires forall r <- rs :: r.labelled
    ensures var l' := Dispatch(l, rs, now);
            && Spent(p, sweepFee, l') == Spent(p, sweepFee, l)
            && Reserved(sweepFee, l') == Reserved(sweepFee, l) + AllAtMost(sweepFee, rs)
            && Pending(l') == Pending(l) + |rs|
  {
    if rs != [] {
      var init, r := rs[..|rs| - 1], rs[|rs| - 1];
      DispatchCharges(p, sweepFee, l, init, now);
      assert r in rs;
      DispatchedCharges(p, sweepFee, Dispatch(l, init, now), r, now);
    }
  }

  // ----- Progress of existing swaps -----

  /** A finished swap changes no more, and finishing costs no more than was reserved. */
  ghost predicate OutStep(s: OutSwap, s': OutSwap) {
    && s' == s.(state := s'.state, cost := s'.cost, updated := s'.updated)
    && (s.state.IsFinal() ==> s' == s)
    && (s.state.IsPending() && s'.state.IsFinal() ==>
          0 <= s'.cost <= s.fees.prepayRouting + s.fees.swapRouting + s.fees.swapFee + s.fees.minerFee)
  }

  ghost predicate InStep(sweepFee: int, s: InSwap, s': InSwap) {
    && s' == s.(state := s'.state, cost := s'.cost, updated := s'.updated)
    && (s.state.IsFinal() ==> s' == s)
    && (s.state.IsPending() && s'.state.IsFinal() ==>
          0 <= s'.cost <= s.fees.minerFee + (if sweepFee > s.fees.swapFee then sweepFee else s.fees.swapFee))
  }

  /** A static loop-in learns its HTLC fee rate, which must fit the reserve. */
  ghost predicate StaticStep(sweepFee: int, s: StaticSwap, s': StaticSwap) {
    && s' == s.(storedHtlcFee := s'.storedHtlcFee, pending := s'.pending, failed := s'.failed,
                blocks := s'.blocks, updated := s'.updated)
    && (!s.pending ==> s' == s)
    && StaticAtMost(s', sweepFee) <= StaticAtMost(s, sweepFee) && 0 <= s.swapFee
  }

  /** Existing swaps progress, and swaps without the label may be added. */
  ghost predicate LedgerStep(sweepFee: int, l: Ledger, l': Ledger) {
    && |l.outs| <= |l'.outs| && |l.ins| <= |l'.ins| && |l.statics| <= |l'.statics|
    && (forall i :: 0 <= i < |l.outs| && l.outs[i].labelled ==> OutStep(l.outs[i], l'.outs[i]))
    && (forall i :: 0 <= i < |l'.outs| && l'.outs[i].labelled ==> i < |l.outs| && l.outs[i].labelled)
    && (forall i :: 0 <= i < |l.ins| && l.ins[i].labelled ==> InStep(sweepFee, l.ins[i], l'.ins[i]))
    && (forall i :: 0 <= i < |l'.ins| && l'.ins[i].labelled ==> i < |l.ins| && l.ins[i].labelled)
    && (forall i :: 0 <= i < |l.statics| && l.statics[i].labelled ==> StaticStep(sweepFee, l.statics[i], l'.statics[i]))
    && (forall i :: 0 <= i < |l'.statics| && l'.statics[i].labelled ==> i < |l.statics| && l.statics[i].labelled)
  }

  /** What finished swaps cost is not negative. */
  ghost predicate Sane(l: Ledger) {
    && (forall s <- l.outs :: s.labelled && s.state.IsFinal() ==> 0 <= s.cost)
    && (forall s <- l.ins :: s.labelled && s.state.IsFinal() ==> 0 <= s.cost)
    && (forall s <- l.statics :: s.labelled && !s.pending ==> 0 <= s.swapFee)
  }

  lemma {:induction false} SumLess(before: seq<int>, after: seq<int>)
    requires |before| <= |after|
    requires forall i :: 0 <= i < |before| ==> after[i] <= before[i]
    requires forall i :: |before| <= i < |after| ==> after[i] == 0
    ensures Sum(after) <= Sum(before)
    decreases |after|
  {
    if after != [] {
      var n := |after| - 1;
      SumLess(if |before| <= n then before else before[..n], after[..n]);
    }
  }

  lemma OutChargeFalls(p: Params, p': Params, s: OutSwap, s': OutSwap)
    requires p.lastRefresh <= p'.lastRefresh && (s'.labelled ==> s.labelled)
    requires s.labelled ==> OutStep(s, s') && (s.state.IsFinal() ==> 0 <= s.cost)
    ensures OutCharge(p', s') <= OutCharge(p, s)
  {
  }

  lemma OutProgress(p: Params, p': Params, sweepFee: int, l: Ledger, l': Ledger)
    requires p.lastRefresh <= p'.lastRefresh && Sane(l) && LedgerStep(sweepFee, l, l')
    ensures Sum(OutCharges(p', l'.outs)) <= Sum(OutCharges(p, l.outs))
    ensures Sum(OutSlots(l'.outs)) <= Sum(OutSlots(l.outs))
  {
    forall i | 0 <= i < |l.outs|
      ensures OutCharge(p', l'.outs[i]) <= OutCharge(p, l.outs[i])
    {
      assert l.outs[i] in l.outs;
      OutChargeFalls(p, p', l.outs[i], l'.outs[i]);
    }
    SumLess(OutCharges(p, l.outs), OutCharges(p', l'.outs));
    SumLess(OutSlots(l.outs), OutSlots(l'.outs));
  }

  lemma InChargeFalls(p: Params, p': Params, sweepFee: int, s: InSwap, s': InSwap)
    requires p.lastRefresh <= p'.lastRefresh && (s'.labelled ==> s.labelled)
    requires s.labelled ==> InStep(sweepFee, s, s') && (s.state.IsFinal() ==> 0 <= s.cost)
    ensures InCharge(p', sweepFee, s') <= InCharge(p, sweepFee, s)
  {
  }

  lemma InProgress(p: Params, p': Params, sweepFee: int, l: Ledger, l': Ledger)
    requires p.lastRefresh <= p'.lastRefresh && Sane(l) && LedgerStep(sweepFee, l, l')
    ensures Sum(InCharges(p', sweepFee, l'.ins)) <= Sum(InCharges(p, sweepFee, l.ins))
    ensures Sum(InSlots(l'.ins)) <= Sum(InSlots(l.ins))
  {
    forall i | 0 <= i < |l.ins|
      ensures InCharge(p', sweepFee, l'.ins[i]) <= InCharge(p, sweepFee, l.ins[i])
    {
      assert l.ins[i] in l.ins;
      InChargeFalls(p, p', sweepFee, l.ins[i], l'.ins[i]);
    }
    SumLess(InCharges(p, sweepFee, l.ins), InCharges(p', sweepFee, l'.ins));
    SumLess(InSlots(l.ins), InSlots(l'.ins));
  }

  lemma StaticProgress(p: Params, p': Params, sweepFee: int, l: Ledger, l': Ledger)
    requires p.lastRefresh <= p'.lastRefresh && LedgerStep(sweepFee, l, l')
    ensures Sum(StaticCharges(p', sweepFee, l'.statics)) <= Sum(StaticCharges(p, sweepFee, l.statics))
    ensures Sum(StaticSlots(l'.statics)) <= Sum(StaticSlots(l.statics))
  {
    SumLess(StaticCharges(p, sweepFee, l.statics), StaticCharges(p', sweepFee, l'.statics));
    SumLess(StaticSlots(l.statics), StaticSlots(l'.statics));
  }

  // ----- All ticks -----

  ghost predicate WithinLimits(p: Params, sweepFee: int, l: Ledger) {
    Spent(p, sweepFee, l) + Reserved(sweepFee, l) <= p.budget && Pending(l) <= p.maxInFlight
  }

  /** No channel is in two pending loop-outs of the planner. */
  ghost predicate PendingApart(outs: seq<OutSwap>) {
    forall i, j :: 0 <= i < j < |outs| && outs[i].labelled && outs[j].labelled
                   && outs[i].state.IsPending() && outs[j].state.IsPending() ==>
      forall x <- outs[i].chans :: x !in outs[j].chans
  }

  lemma StepWithinLimits(p: Params, p': Params, sweepFee: int, l: Ledger, l': Ledger)
    requires p' == p.(lastRefresh := p'.lastRefresh) && p.lastRefresh <= p'.lastRefresh
    requires Sane(l) && LedgerStep(sweepFee, l, l') && WithinLimits(p, sweepFee, l)
    ensures WithinLimits(p', sweepFee, l')
  {
    OutProgress(p, p', sweepFee, l, l');
    InProgress(p, p', sweepFee, l, l');
    StaticProgress(p, p', sweepFee, l, l');
    TotalsAreBooks(p, sweepFee, l);
    TotalsAreBooks(p', sweepFee, l');
  }

  lemma StepApart(sweepFee: int, l: Ledger, l': Ledger)
    requires LedgerStep(sweepFee, l, l') && PendingApart(l.outs)
    ensures PendingApart(l'.outs)
  {
  }

  lemma StepSane(sweepFee: int, l: Ledger, l': Ledger)
    requires LedgerStep(sweepFee, l, l') && Sane(l)
    ensures Sane(l')
  {
  }

  /** What is dispatched keeps clear of what is pending. */
  ghost predicate Fits(l: Ledger, r: Request) {
    r.OutRequest? ==> forall s <- l.outs :: s.state.IsPending() ==> forall x <- s.chans :: x !in r.chans
  }

  lemma ClearFits(l: Ledger, cutoff: int, known: map<ChanId, Peer>, r: Request)
    requires Clear(TrafficOf(l, cutoff), known, r)
    ensures Fits(l, r)
  {
  }

  lemma DispatchedApart(l: Ledger, r: Request, now: int)
    requires PendingApart(l.outs) && Fits(l, r)
    ensures PendingApart(Dispatched(l, r, now).outs)
  {
  }

  lemma DispatchedFits(l: Ledger, r: Request, now: int, q: Request)
    requires Fits(l, q) && RequestChans(r) !! RequestChans(q)
    ensures Fits(Dispatched(l, r, now), q)
  {
    if q.OutRequest? && r.OutRequest? {
      forall x <- r.chans
        ensures x !in q.chans
      {
        assert x in RequestChans(r);
      }
    }
  }

  lemma {:induction false} DispatchFits(l: Ledger, rs: seq<Request>, now: int, q: Request)
    requires Fits(l, q) && forall r <- rs :: RequestChans(r) !! RequestChans(q)
    ensures Fits(Dispatch(l, rs, now), q)
  {
    if rs != [] {
      DispatchFits(l, rs[..|rs| - 1], now, q);
      assert rs[|rs| - 1] in rs;
      DispatchedFits(Dispatch(l, rs[..|rs| - 1], now), rs[|rs| - 1], now, q);
    }
  }

  lemma {:induction false} DispatchApart(l: Ledger, rs: seq<Request>, now: int)
    requires PendingApart(l.outs) && ChansApart(rs) && forall r <- rs :: Fits(l, r)
    ensures PendingApart(Dispatch(l, rs, now).outs)
  {
    if rs != [] {
      var init, r := rs[..|rs| - 1], rs[|rs| - 1];
      DispatchApart(l, init, now);
      assert r in rs;
      DispatchFits(l, init, now, r);
      DispatchedApart(Dispatch(l, init, now), r, now);
    }
  }

  lemma {:induction false} DispatchSane(l: Ledger, rs: seq<Request>, now: int)
    requires Sane(l)
    ensures Sane(Dispatch(l, rs, now))
  {
    if rs != [] {
      DispatchSane(l, rs[..|rs| - 1], now);
    }
  }

  /** The requests at the indices. */
  function Chosen(rs: seq<Request>, indices: set<nat>): seq<Request> {
    if rs == [] then []
    else
      var n := |rs| - 1;
      Chosen(rs[..n], indices) + (if n in indices then [rs[n]] else [])
  }

  /** What is left out would have cost something. */
  ghost predicate OthersCost(sweepFee: int, rs: seq<Request>, indices: set<nat>) {
    forall i :: 0 <= i < |rs| && i !in indices ==> AtMost(sweepFee, rs[i]) >= 0
  }

  lemma {:induction false} ChosenCharges(sweepFee: int, rs: seq<Request>, indices: set<nat>)
    requires OthersCost(sweepFee, rs, indices)
    ensures AllAtMost(sweepFee, Chosen(rs, indices)) <= AllAtMost(sweepFee, rs) && |Chosen(rs, indices)| <= |rs|
  {
    if rs != [] {
      var n := |rs| - 1;
      var before := Chosen(rs[..n], indices);
      ChosenCharges(sweepFee, rs[..n], indices);
      if n in indices {
        assert (before + [rs[n]])[..|before|] == before;
      } else {
        assert before + [] == before;
      }
    }
  }

  lemma {:induction false} ChosenApart(rs: seq<Request>, indices: set<nat>)
    requires ChansApart(rs)
    ensures ChansApart(Chosen(rs, indices)) && forall r <- Chosen(rs, indices) :: r in rs
  {
    if rs != [] {
      var init, last := rs[..|rs| - 1], rs[|rs| - 1];
      ChosenApart(init, indices);
      var before := Chosen(init, indices);
      forall r <- before
        ensures RequestChans(r) !! RequestChans(last) && r in rs
      {
        var i :| 0 <= i < |init| && init[i] == r;
        assert rs[i] == r;
      }
    }
  }

  /** One tick: existing swaps have progressed to the ledger given, the budget
      period may have been refreshed, and of the accepted swaps those at the sent
      indices are dispatched: a loop-out can fail on its own, and the first
      loop-in that cannot be dispatched ends the tick. */
  datatype Tick = Tick(
    ledger: Ledger, lastRefresh: int, outside: Outside, channels: seq<Channel>, order: seq<Peer>, now: int,
    sent: set<nat>)

  function Refreshed(p: Params, t: Tick): Params {
    p.(lastRefresh := t.lastRefresh)
  }

  function AfterTick(p: Params, t: Tick): Ledger
    requires ValidRules(p)
  {
    match SuggestSwaps(p, t.outside, t.ledger, t.channels, t.order)
    case None => t.ledger
    case Some(s) => if p.autoloop then Dispatch(t.ledger, Chosen(s.accepted, t.sent), t.now) else t.ledger
  }

  /** The accepted swaps that are not dispatched have fees that are not negative. */
  ghost predicate UnsentCost(p: Params, t: Tick)
    requires ValidRules(p)
  {
    match SuggestSwaps(p, t.outside, t.ledger, t.channels, t.order)
    case None => true
    case Some(s) => OthersCost(t.outside.sweepFee, s.accepted, t.sent)
  }

  ghost predicate TickFrom(p: Params, sweepFee: int, l: Ledger, t: Tick) {
    && p.lastRefresh <= t.lastRefresh && LedgerStep(sweepFee, l, t.ledger)
    && t.outside.sweepFee == sweepFee && WellFormed(p, t.channels, t.order)
    && ValidRules(Refreshed(p, t)) && UnsentCost(Refreshed(p, t), t)
  }

  ghost predicate Invariant(p: Params, sweepFee: int, l: Ledger) {
    Sane(l) && WithinLimits(p, sweepFee, l) && PendingApart(l.outs)
  }

  lemma StepKeeps(p: Params, p': Params, sweepFee: int, l: Ledger, l': Ledger)
    requires p' == p.(lastRefresh := p'.lastRefresh) && p.lastRefresh <= p'.lastRefresh
    requires LedgerStep(sweepFee, l, l') && Invariant(p, sweepFee, l)
    ensures Invariant(p', sweepFee, l')
  {
    StepWithinLimits(p, p', sweepFee, l, l');
    StepApart(sweepFee, l, l');
    StepSane(sweepFee, l, l');
  }

  lemma RefreshKeepsRules(p: Params, t: Tick)
    requires WellFormed(p, t.channels, t.order)
    ensures WellFormed(Refreshed(p, t), t.channels, t.order)
  {
  }

  lemma TickKeeps(p: Params, sweepFee: int, l: Ledger, t: Tick)
    requires TickFrom(p, sweepFee, l, t) && Invariant(p, sweepFee, l)
    ensures Invariant(Refreshed(p, t), sweepFee, t.ledger)
    ensures ValidRules(Refreshed(p, t)) && Invariant(Refreshed(p, t), sweepFee, AfterTick(Refreshed(p, t), t))
  {
    StepKeeps(p, Refreshed(p, t), sweepFee, l, t.ledger);
    RefreshKeepsRules(p, t);
    PassKeeps(Refreshed(p, t), t);
  }

  lemma PassKeeps(p: Params, t: Tick)
    requires WellFormed(p, t.channels, t.order) && Invariant(p, t.outside.sweepFee, t.ledger) && UnsentCost(p, t)
    ensures Invariant(p, t.outside.sweepFee, AfterTick(p, t))
  {
    var reply := SuggestSwaps(p, t.outside, t.ledger, t.channels, t.order);
    if reply.Some? && p.autoloop {
      AcceptedKeeps(p, t, reply.value.accepted);
    }
  }

  lemma AcceptedKeeps(p: Params, t: Tick, accepted: seq<Request>)
    requires WellFormed(p, t.channels, t.order) && Invariant(p, t.outside.sweepFee, t.ledger) && p.autoloop
    requires match SuggestSwaps(p, t.outside, t.ledger, t.channels, t.order)
             case None => false
             case Some(s) => s.accepted == accepted
    requires OthersCost(t.outside.sweepFee, accepted, t.sent)
    ensures Invariant(p, t.outside.sweepFee, Dispatch(t.ledger, Chosen(accepted, t.sent), t.now))
  {
    var l, o := t.ledger, t.outside;
    PassWithinBudget(p, o, l, t.channels, t.order);
    PassClear(p, o, l, t.channels, t.order);
    ChosenCharges(o.sweepFee, accepted, t.sent);
    ChosenApart(accepted, t.sent);
    var sent := Chosen(accepted, t.sent);
    forall r <- sent
      ensures Fits(l, r)
    {
      assert r in accepted;
      ClearFits(l, o.failureCutoff, Known(t.channels), r);
    }
    DispatchCharges(p, o.sweepFee, l, sent, t.now);
    DispatchApart(l, sent, t.now);
    DispatchSane(l, sent, t.now);
  }

  ghost predicate Run(p: Params, sweepFee: int, l: Ledger, ticks: seq<Tick>)
    decreases |ticks|
  {
    ticks == [] || (&& TickFrom(p, sweepFee, l, ticks[0])
                    && Run(Refreshed(p, ticks[0]), sweepFee, AfterTick(Refreshed(p, ticks[0]), ticks[0]), ticks[1..]))
  }

  ghost function End(p: Params, sweepFee: int, l: Ledger, ticks: seq<Tick>): (Params, Ledger)
    requires Run(p, sweepFee, l, ticks)
    decreases |ticks|
  {
    if ticks == [] then (p, l)
    else End(Refreshed(p, ticks[0]), sweepFee, AfterTick(Refreshed(p, ticks[0]), ticks[0]), ticks[1..])
  }

  /** Over every run of ticks: what the planner's swaps have cost in the budget
      period and may still cost is within the budget, no more of them are in flight
      than allowed, and no channel is in two of its pending loop-outs. */
  lemma {:induction false} BudgetOverTicks(p: Params, sweepFee: int, l: Ledger, ticks: seq<Tick>)
    requires Run(p, sweepFee, l, ticks) && Invariant(p, sweepFee, l)
    ensures var (p', l') := End(p, sweepFee, l, ticks); Invariant(p', sweepFee, l')
    decreases |ticks|
  {
    if ticks != [] {
      TickKeeps(p, sweepFee, l, ticks[0]);
      BudgetOverTicks(Refreshed(p, ticks[0]), sweepFee, AfterTick(Refreshed(p, ticks[0]), ticks[0]), ticks[1..]);
    }
  }

  /** A client without swaps starts out within its limits. */
  lemma FreshStart(p: Params, sweepFee: int)
    requires 0 <= p.budget && 0 <= p.maxInFlight
    ensures Invariant(p, sweepFee, Ledger([], [], []))
  {
  }
}
