/** The planner's pass as the loops that fill its maps and lists, proved to compute
    what the functions of Planner say. */
module PlannerExecutor {
  import opened Options
  import opened SwapStates
  import opened Planner
  import opened PlannerBooks
  import T = Threshold

  lemma Front<X>(s: seq<X>, i: nat)
    requires i < |s|
    ensures s[..i + 1] == s[..i] + [s[i]] && s[..i + 1][..i] == s[..i]
  {
  }

  // ----- The budget summary -----

  method SummarizeOuts(p: Params, outs: seq<OutSwap>) returns (spent: int, pending: int, inFlight: int)
    ensures spent == SpentOuts(outs, p.lastRefresh) && pending == ReservedOuts(outs)
    ensures inFlight == PendingOuts(outs)
  {
    spent, pending, inFlight := 0, 0, 0;
    for i := 0 to |outs|
      invariant spent == SpentOuts(outs[..i], p.lastRefresh) && pending == ReservedOuts(outs[..i])
      invariant inFlight == PendingOuts(outs[..i])
    {
      var s := outs[i];
      Front(outs, i);
      if s.labelled {
        if s.state.IsPending() {
          inFlight := inFlight + 1;
          pending := pending + WorstCaseOut(s.fees);
        } else if s.updated > p.lastRefresh {
          spent := spent + s.cost;
        }
      }
    }
    assert outs[..|outs|] == outs;
  }

  method SummarizeIns(p: Params, sweepFee: int, ins: seq<InSwap>) returns (spent: int, pending: int, inFlight: int)
    ensures spent == SpentIns(ins, p.lastRefresh) && pending == ReservedIns(ins, sweepFee)
    ensures inFlight == PendingIns(ins)
  {
    spent, pending, inFlight := 0, 0, 0;
    for i := 0 to |ins|
      invariant spent == SpentIns(ins[..i], p.lastRefresh) && pending == ReservedIns(ins[..i], sweepFee)
      invariant inFlight == PendingIns(ins[..i])
    {
      var s := ins[i];
      Front(ins, i);
      if s.labelled {
        if s.state.IsPending() {
          inFlight := inFlight + 1;
          pending := pending + WorstCaseIn(sweepFee, s.fees);
        } else if s.updated >= p.lastRefresh {
          spent := spent + s.cost;
        }
      }
    }
    assert ins[..|ins|] == ins;
  }

  method SummarizeStatics(p: Params, sweepFee: int, statics: seq<StaticSwap>)
    returns (spent: int, pending: int, inFlight: int)
    ensures spent == SpentStatics(statics, sweepFee, p.lastRefresh) && pending == ReservedStatics(statics, sweepFee)
    ensures inFlight == PendingStatics(statics)
  {
    spent, pending, inFlight := 0, 0, 0;
    for i := 0 to |statics|
      invariant spent == SpentStatics(statics[..i], sweepFee, p.lastRefresh)
      invariant pending == ReservedStatics(statics[..i], sweepFee) && inFlight == PendingStatics(statics[..i])
    {
      var s := statics[i];
      Front(statics, i);
      if s.labelled {
        if s.pending {
          inFlight := inFlight + 1;
          pending := pending + StaticReserve(sweepFee, s);
        } else if s.updated < p.lastRefresh {
        } else if s.failed {
          spent := spent + StaticReserve(sweepFee, s);
        } else {
          spent := spent + s.swapFee;
        }
      }
    }
    assert statics[..|statics|] == statics;
  }

  method CheckExistingAutoLoops(p: Params, sweepFee: int, l: Ledger)
    returns (spent: int, pending: int, inFlight: int)
    ensures spent == Spent(p, sweepFee, l) && pending == Reserved(sweepFee, l) && inFlight == Pending(l)
  {
    spent, pending, inFlight := SummarizeOuts(p, l.outs);
    var s1, p1, n1 := SummarizeIns(p, sweepFee, l.ins);
    var s2, p2, n2 := SummarizeStatics(p, sweepFee, l.statics);
    spent, pending, inFlight := spent + s1 + s2, pending + p1 + p2, inFlight + n1 + n2;
  }

  // ----- The traffic summary -----

  lemma FailedOutGrows(outs: seq<OutSwap>, s: OutSwap, cutoff: int)
    ensures FailedOutChans(outs + [s], cutoff)
         == FailedOutChans(outs, cutoff) + (if RecentlyFailedOut(s, cutoff) then set c | c in s.chans else {})
  {
    var all, before := outs + [s], FailedOutChans(outs, cutoff);
    forall c: ChanId
      ensures c in FailedOutChans(all, cutoff) <==> c in before || (RecentlyFailedOut(s, cutoff) && c in s.chans)
    {
      if c in FailedOutChans(all, cutoff) {
        var x :| x in all && RecentlyFailedOut(x, cutoff) && c in x.chans;
        assert x in outs || x == s;
      } else {
        assert s in all && forall x <- outs :: x in all;
      }
    }
  }

  lemma OngoingOutGrows(outs: seq<OutSwap>, s: OutSwap)
    ensures OngoingOutChans(outs + [s])
         == OngoingOutChans(outs) + (if s.state.IsPending() then set c | c in s.chans else {})
  {
    var all, before := outs + [s], OngoingOutChans(outs);
    forall c: ChanId
      ensures c in OngoingOutChans(all) <==> c in before || (s.state.IsPending() && c in s.chans)
    {
      if c in OngoingOutChans(all) {
        var x :| x in all && x.state.IsPending() && c in x.chans;
        assert x in outs || x == s;
      } else {
        assert s in all && forall x <- outs :: x in all;
      }
    }
  }

  lemma InTrafficGrows(ins: seq<InSwap>, s: InSwap, cutoff: int)
    ensures OngoingInPeers(ins + [s])
         == OngoingInPeers(ins) + (if s.lastHop.Some? && OngoingIn(s) then {s.lastHop.value} else {})
    ensures FailedInPeers(ins + [s], cutoff)
         == FailedInPeers(ins, cutoff)
            + (if s.lastHop.Some? && RecentlyFailedIn(s, cutoff) then {s.lastHop.value} else {})
  {
  }

  lemma StaticTrafficGrows(statics: seq<StaticSwap>, s: StaticSwap, cutoff: int)
    ensures OngoingStaticPeers(statics + [s])
         == OngoingStaticPeers(statics) + (if s.lastHop.Some? && OngoingStatic(s) then {s.lastHop.value} else {})
    ensures FailedStaticPeers(statics + [s], cutoff)
         == FailedStaticPeers(statics, cutoff)
            + (if s.lastHop.Some? && RecentlyFailedStatic(s, cutoff) then {s.lastHop.value} else {})
  {
  }

  method OutTraffic(outs: seq<OutSwap>, cutoff: int) returns (failed: set<ChanId>, ongoing: set<ChanId>)
    ensures failed == FailedOutChans(outs, cutoff) && ongoing == OngoingOutChans(outs)
  {
    failed, ongoing := {}, {};
    for i := 0 to |outs|
      invariant failed == FailedOutChans(outs[..i], cutoff) && ongoing == OngoingOutChans(outs[..i])
    {
      var s := outs[i];
      Front(outs, i);
      FailedOutGrows(outs[..i], s, cutoff);
      OngoingOutGrows(outs[..i], s);
      if s.state.FailOffchainPayments? && s.updated > cutoff {
        failed := failed + set c | c in s.chans;
      }
      if s.state.IsPending() {
        ongoing := ongoing + set c | c in s.chans;
      }
    }
    assert outs[..|outs|] == outs;
  }

  method InTraffic(ins: seq<InSwap>, cutoff: int) returns (ongoing: set<Peer>, failed: set<Peer>)
    ensures ongoing == OngoingInPeers(ins) && failed == FailedInPeers(ins, cutoff)
  {
    ongoing, failed := {}, {};
    for i := 0 to |ins|
      invariant ongoing == OngoingInPeers(ins[..i]) && failed == FailedInPeers(ins[..i], cutoff)
    {
      var s := ins[i];
      Front(ins, i);
      InTrafficGrows(ins[..i], s, cutoff);
      if s.lastHop.Some? {
        if s.state.IsPending() && !s.state.InvoiceSettled? {
          ongoing := ongoing + {s.lastHop.value};
        } else if s.state.FailTimeout? && s.updated > cutoff {
          failed := failed + {s.lastHop.value};
        }
      }
    }
    assert ins[..|ins|] == ins;
  }

  method StaticTraffic(statics: seq<StaticSwap>, cutoff: int) returns (ongoing: set<Peer>, failed: set<Peer>)
    ensures ongoing == OngoingStaticPeers(statics) && failed == FailedStaticPeers(statics, cutoff)
  {
    ongoing, failed := {}, {};
    for i := 0 to |statics|
      invariant ongoing == OngoingStaticPeers(statics[..i]) && failed == FailedStaticPeers(statics[..i], cutoff)
    {
      var s := statics[i];
      Front(statics, i);
      StaticTrafficGrows(statics[..i], s, cutoff);
      if s.lastHop.Some? {
        if s.pending && s.blocks {
          ongoing := ongoing + {s.lastHop.value};
        } else if s.failed && s.updated > cutoff {
          failed := failed + {s.lastHop.value};
        }
      }
    }
    assert statics[..|statics|] == statics;
  }

  method CurrentSwapTraffic(l: Ledger, cutoff: int) returns (t: Traffic)
    ensures t == TrafficOf(l, cutoff)
  {
    var failedOut, ongoingOut := OutTraffic(l.outs, cutoff);
    var ongoingIn, failedIn := InTraffic(l.ins, cutoff);
    var ongoingStatic, failedStatic := StaticTraffic(l.statics, cutoff);
    t := Traffic(failedOut, ongoingOut, ongoingIn + ongoingStatic, failedIn + failedStatic);
  }

  // ----- Channels by peer -----

  datatype PeerEntry = PeerEntry(chans: seq<ChanId>, balances: T.Balances)

  ghost predicate Indexed(channels: seq<Channel>, peers: map<Peer, PeerEntry>) {
    && peers.Keys == Peers(channels)
    && forall q <- peers :: peers[q] == PeerEntry(PeerChans(channels, q), PeerBalances(channels, q))
  }

  lemma PeersGrow(channels: seq<Channel>, c: Channel)
    ensures Peers(channels + [c]) == Peers(channels) + (if c.custom then {} else {c.peer})
  {
  }

  lemma {:induction false} NoChannels(channels: seq<Channel>, q: Peer)
    requires q !in Peers(channels)
    ensures PeerChans(channels, q) == []
    ensures PeerCapacity(channels, q) == PeerIncoming(channels, q) == PeerOutgoing(channels, q) == 0
  {
    if channels != [] {
      var c := channels[|channels| - 1];
      PeersGrow(channels[..|channels| - 1], c);
      assert channels == channels[..|channels| - 1] + [c];
      NoChannels(channels[..|channels| - 1], q);
    }
  }

  lemma EntryGrows(channels: seq<Channel>, c: Channel, q: Peer)
    ensures PeerChans(channels + [c], q) == PeerChans(channels, q) + (if !c.custom && c.peer == q then [c.id] else [])
    ensures var n := if !c.custom && c.peer == q then 1 else 0;
            && PeerCapacity(channels + [c], q) == PeerCapacity(channels, q) + n * c.capacity
            && PeerIncoming(channels + [c], q) == PeerIncoming(channels, q) + n * c.remote
            && PeerOutgoing(channels + [c], q) == PeerOutgoing(channels, q) + n * c.local
  {
    assert (channels + [c])[..|channels|] == channels;
  }

  function Added(peers: map<Peer, PeerEntry>, c: Channel): PeerEntry {
    if c.peer in peers then
      var e := peers[c.peer];
      PeerEntry(e.chans + [c.id], T.Balances(
        e.balances.capacity + c.capacity, e.balances.incoming + c.remote, e.balances.outgoing + c.local))
    else PeerEntry([c.id], T.Balances(c.capacity, c.remote, c.local))
  }

  lemma AddedEntry(channels: seq<Channel>, peers: map<Peer, PeerEntry>, c: Channel)
    requires Indexed(channels, peers) && !c.custom
    ensures var all := channels + [c];
            Added(peers, c) == PeerEntry(PeerChans(all, c.peer), PeerBalances(all, c.peer))
  {
    EntryGrows(channels, c, c.peer);
    if c.peer !in peers {
      NoChannels(channels, c.peer);
    }
  }

  lemma AddChannel(channels: seq<Channel>, peers: map<Peer, PeerEntry>, c: Channel)
    requires Indexed(channels, peers) && !c.custom
    ensures Indexed(channels + [c], peers[c.peer := Added(peers, c)])
  {
    PeersGrow(channels, c);
    AddedEntry(channels, peers, c);
    forall q <- peers | q != c.peer
      ensures peers[q] == PeerEntry(PeerChans(channels + [c], q), PeerBalances(channels + [c], q))
    {
      EntryGrows(channels, c, q);
    }
  }

  method IndexChannels(channels: seq<Channel>) returns (known: map<ChanId, Peer>, peers: map<Peer, PeerEntry>)
    ensures known == Known(channels) && Indexed(channels, peers)
  {
    known, peers := map[], map[];
    for i := 0 to |channels|
      invariant known == Known(channels[..i]) && Indexed(channels[..i], peers)
    {
      var c := channels[i];
      Front(channels, i);
      if c.custom {
        CustomSkipped(channels[..i], peers, c);
      } else {
        known := known[c.id := c.peer];
        AddChannel(channels[..i], peers, c);
        peers := peers[c.peer := Added(peers, c)];
      }
    }
    assert channels[..|channels|] == channels;
  }

  lemma CustomSkipped(channels: seq<Channel>, peers: map<Peer, PeerEntry>, c: Channel)
    requires Indexed(channels, peers) && c.custom
    ensures Indexed(channels + [c], peers)
  {
  }

  // ----- The pass -----

  /** Examines the peers in the order given, then the channels. */
  method ListItems(p: Params, channels: seq<Channel>, order: seq<Peer>, peers: map<Peer, PeerEntry>)
    returns (items: seq<Item>)
    requires Indexed(channels, peers) && forall q <- order :: q in peers
    ensures items == Items(p, channels, order)
  {
    items := [];
    for i := 0 to |order|
      invariant items == PeerItems(p, channels, order[..i])
    {
      var q := order[i];
      Front(order, i);
      assert q in order;
      if q in p.peerRules {
        items := items + [Examine(PeerEntity(q), q, peers[q].chans, peers[q].balances, p.peerRules[q])];
      }
    }
    assert order[..|order|] == order;
    for i := 0 to |channels|
      invariant items == PeerItems(p, channels, order) + ChanItems(p, channels[..i])
    {
      var c := channels[i];
      Front(channels, i);
      if c.custom {
        items := items + [Custom(c.id)];
      } else if c.id in p.chanRules {
        var balances := T.Balances(c.capacity, c.remote, c.local);
        items := items + [Examine(ChanEntity(c.id), c.peer, [c.id], balances, p.chanRules[c.id])];
      }
    }
    assert channels[..|channels|] == channels;
  }

  method CollectCandidates(p: Params, o: Outside, t: Traffic, items: seq<Item>) returns (draft: Option<Draft>)
    requires ValidItems(items)
    ensures draft == Collect(p, o, t, items)
  {
    var candidates, disqualified := [], map[];
    for i := 0 to |items|
      invariant Collect(p, o, t, items[..i]) == Some(Draft(candidates, disqualified))
    {
      var item := items[i];
      Front(items, i);
      assert item in items;
      if item.Custom? {
        disqualified := disqualified[item.Entity() := CustomChannelData];
      } else {
        var reply := SuggestSwap(p, o, t, item);
        if reply.Broken? {
          CollectStops(p, o, t, items, i + 1);
          return None;
        }
        if reply.Refused? {
          disqualified := disqualified[item.Entity() := reply.reason];
        } else {
          candidates := candidates + [reply.value];
        }
      }
    }
    assert items[..|items|] == items;
    draft := Some(Draft(candidates, disqualified));
  }

  lemma {:induction false} CollectStops(p: Params, o: Outside, t: Traffic, items: seq<Item>, i: nat)
    requires ValidItems(items) && i <= |items| && Collect(p, o, t, items[..i]).None?
    ensures Collect(p, o, t, items).None?
    decreases |items|
  {
    if i == |items| {
      assert items[..i] == items;
    } else {
      assert items[..|items| - 1][..i] == items[..i];
      CollectStops(p, o, t, items[..|items| - 1], i);
    }
  }

  method DecideOn(sweepFee: int, plan: Plan, allowed: int, entities: set<Entity>, r: Request) returns (after: Plan)
    ensures after == Decide(sweepFee, plan, allowed, entities, r)
  {
    if plan.available == 0 {
      return SetReason(plan, entities, BudgetInsufficient);
    }
    if |plan.accepted| == allowed {
      return SetReason(plan, entities, InFlight);
    }
    var fees := WorstCase(sweepFee, r);
    if fees > plan.available {
      return SetReason(plan, entities, BudgetInsufficient);
    }
    return plan.(available := plan.available - fees, accepted := plan.accepted + [r]);
  }

  method AllocateCandidates(
      p: Params, o: Outside, known: map<ChanId, Peer>, allowed: int, start: Plan, candidates: seq<Candidate>)
    returns (result: Option<Plan>)
    ensures result == Allocate(p, o, known, allowed, start, candidates)
  {
    var plan := start;
    for i := 0 to |candidates|
      invariant Allocate(p, o, known, allowed, start, candidates[..i]) == Some(plan)
    {
      var c := candidates[i];
      Front(candidates, i);
      var entities := CandidateEntities(p, known, c);
      var reply := Prepare(p, o, plan.excluded, c);
      if reply.Broken? {
        AllocateStops(p, o, known, allowed, start, candidates, i + 1);
        return None;
      }
      if reply.Refused? {
        plan := SetReason(plan, entities, reply.reason);
      } else {
        var (r, excluded) := reply.value;
        plan := DecideOn(o.sweepFee, plan.(excluded := excluded), allowed, entities, r);
      }
    }
    assert candidates[..|candidates|] == candidates;
    result := Some(plan);
  }

  lemma {:induction false} AllocateStops(
      p: Params, o: Outside, known: map<ChanId, Peer>, allowed: int, start: Plan, candidates: seq<Candidate>, i: nat)
    requires i <= |candidates| && Allocate(p, o, known, allowed, start, candidates[..i]).None?
    ensures Allocate(p, o, known, allowed, start, candidates).None?
    decreases |candidates|
  {
    if i == |candidates| {
      assert candidates[..i] == candidates;
    } else {
      assert candidates[..|candidates| - 1][..i] == candidates[..i];
      AllocateStops(p, o, known, allowed, start, candidates[..|candidates| - 1], i);
    }
  }

  method FillPlan(p: Params, o: Outside, known: map<ChanId, Peer>, available: int, allowed: int, draft: Draft)
    returns (suggestions: Option<Suggestions>)
    ensures suggestions == Fill(p, o, known, available, allowed, draft)
  {
    var start := Plan(available, [], draft.disqualified, []);
    var plan := AllocateCandidates(p, o, known, allowed, start, Sort(draft.candidates));
    if plan.None? {
      return None;
    }
    return Some(Suggestions(plan.value.accepted, plan.value.disqualified));
  }

  method ExamineRules(p: Params, o: Outside, l: Ledger, channels: seq<Channel>, order: seq<Peer>)
    returns (known: map<ChanId, Peer>, draft: Option<Draft>)
    requires ValidRules(p) && forall q <- order :: q in Peers(channels)
    ensures known == Known(channels) && draft == Examined(p, o, l, channels, order)
  {
    var peers;
    known, peers := IndexChannels(channels);
    var t := CurrentSwapTraffic(l, o.failureCutoff);
    var items := ListItems(p, channels, order, peers);
    ItemsValid(p, channels, order);
    draft := CollectCandidates(p, o, t, items);
  }

  /** ErrNoRules, the two gates, and then the rules. */
  method Suggest(p: Params, o: Outside, l: Ledger, channels: seq<Channel>, order: seq<Peer>)
    returns (suggestions: Option<Suggestions>)
    requires ValidRules(p) && forall q <- order :: q in Peers(channels)
    ensures suggestions == SuggestSwaps(p, o, l, channels, order)
  {
    var spent, pending, inFlight := CheckExistingAutoLoops(p, o.sweepFee, l);
    var total := spent + pending;
    TotalsAreBooks(p, o.sweepFee, l);
    var gate := Gate(p, total, inFlight);
    if gate.Some? {
      GateConcludes(p, o, Known(channels), total, inFlight, Examined(p, o, l, channels, order));
      return gate.value;
    }
    var known, draft := ExamineRules(p, o, l, channels, order);
    if draft.None? {
      return None;
    }
    suggestions := FillPlan(p, o, known, p.budget - total, p.maxInFlight - inFlight, draft.value);
  }

  /** The answer that needs no examination, if any. */
  method Gate(p: Params, total: int, inFlight: int) returns (answer: Option<Option<Suggestions>>)
    ensures answer == GateAnswer(p, total, inFlight)
  {
    if p.peerRules == map[] && p.chanRules == map[] {
      return Some(None);
    }
    if total >= p.budget {
      return Some(Some(SingleReason(p, BudgetElapsed)));
    }
    if p.maxInFlight - inFlight <= 0 {
      return Some(Some(SingleReason(p, InFlight)));
    }
    return None;
  }

  function GateAnswer(p: Params, total: int, inFlight: int): Option<Option<Suggestions>> {
    if p.peerRules == map[] && p.chanRules == map[] then Some(None)
    else if total >= p.budget then Some(Some(SingleReason(p, BudgetElapsed)))
    else if p.maxInFlight <= inFlight then Some(Some(SingleReason(p, InFlight)))
    else None
  }

  lemma GateConcludes(p: Params, o: Outside, known: map<ChanId, Peer>, total: int, inFlight: int, draft: Option<Draft>)
    requires GateAnswer(p, total, inFlight).Some?
    ensures Conclude(p, o, known, total, inFlight, draft) == GateAnswer(p, total, inFlight).value
  {
  }
}
