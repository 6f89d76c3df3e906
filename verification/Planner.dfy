/** One pass of the autoloop planner (liquidity/liquidity.go): which swaps it
    accepts, and why it disqualifies the other rules. Quotes, the static address
    preparer and the swap lists come from outside; the order in which a map of
    peers is walked is an arbitrary enumeration. */
module Planner {
  import opened Options
  import opened SwapStates
  import FeePortion
  import T = Threshold

  type Peer = int
  type ChanId = int
  type Outpoint = int

  datatype Reason =
    | BudgetElapsed | InFlight | FailureBackoff | OngoingLoopOut | OngoingLoopIn | LiquidityOk
    | BudgetInsufficient | CustomChannelData | FeeReason(code: nat)

  /** What a rule is about: a peer with all its channels, or one channel. */
  datatype Entity = PeerEntity(peer: Peer) | ChanEntity(chan: ChanId)

  datatype SwapRule = SwapRule(rule: T.Rule, swapType: T.SwapType)

  datatype Params = Params(
    budget: int, maxInFlight: int, autoloop: bool, staticSource: bool,
    peerRules: map<Peer, SwapRule>, chanRules: map<ChanId, SwapRule>, lastRefresh: int)

  datatype Channel = Channel(id: ChanId, peer: Peer, custom: bool, capacity: nat, local: nat, remote: nat)

  datatype OutFees = OutFees(prepayRouting: int, swapRouting: int, swapFee: int, minerFee: int)

  datatype InFees = InFees(minerFee: int, swapFee: int)

  /** htlcFee is the fee of the HTLC that spends the deposits, at the default rate. */
  datatype Prepared = Prepared(amount: int, swapFee: int, htlcFee: int, deposits: seq<Outpoint>)

  /** An answer, a refusal for a reason, or an error that ends the pass. */
  datatype Reply<T> = Got(value: T) | Refused(reason: Reason) | Broken

  /** sweepFee is the fee of sweeping the timed-out HTLC of a loop-in, at the default rate. */
  datatype Outside = Outside(
    sweepFee: int, outLimits: T.Restrictions, inLimits: T.Restrictions, mayLoopOut: Reply<()>,
    quoteOut: (Entity, int) -> Reply<OutFees>, quoteIn: (Entity, int) -> Reply<InFees>,
    prepare: (Peer, int, int, seq<Outpoint>) -> Reply<Prepared>, failureCutoff: int)

  // ----- Fees -----

  function Max(a: int, b: int): (m: int)
    ensures m >= a && m >= b && (m == a || m == b)
  {
    if a > b then a else b
  }

  function WorstCaseOut(f: OutFees): int {
    FeePortion.WorstCaseOutFees(f.prepayRouting, f.swapRouting, f.swapFee, f.minerFee)
  }

  function WorstCaseIn(sweepFee: int, f: InFees): int {
    Max(f.minerFee + sweepFee, f.minerFee + f.swapFee)
  }

  /** The default rate stands in for an HTLC fee rate that is not stored yet. */
  function WorstCaseStatic(sweepFee: int, swapFee: int, defaultHtlcFee: int, storedHtlcFee: Option<int>): int {
    Max((if storedHtlcFee.Some? then storedHtlcFee.value else defaultHtlcFee) + sweepFee, swapFee)
  }

  datatype Request =
    | OutRequest(chans: seq<ChanId>, amount: int, outFees: OutFees, labelled: bool)
    | InRequest(peer: Peer, amount: int, inFees: InFees, labelled: bool)
    | StaticRequest(peer: Peer, prepared: Prepared, labelled: bool)

  function WorstCase(sweepFee: int, r: Request): int {
    match r
    case OutRequest(_, _, f, _) => WorstCaseOut(f)
    case InRequest(_, _, f, _) => WorstCaseIn(sweepFee, f)
    case StaticRequest(_, p, _) => WorstCaseStatic(sweepFee, p.swapFee, p.htlcFee, None)
  }

  // ----- Existing swaps -----

  datatype OutSwap = OutSwap(
    chans: seq<ChanId>, fees: OutFees, labelled: bool, state: SwapState, cost: int, updated: int)

  datatype InSwap = InSwap(
    lastHop: Option<Peer>, fees: InFees, labelled: bool, state: SwapState, cost: int, updated: int)

  /** storedHtlcFee is the fee of the HTLC at the rate stored with the swap, if any. */
  datatype StaticSwap = StaticSwap(
    lastHop: Option<Peer>, swapFee: int, defaultHtlcFee: int, storedHtlcFee: Option<int>,
    labelled: bool, pending: bool, failed: bool, blocks: bool, updated: int)

  datatype Ledger = Ledger(outs: seq<OutSwap>, ins: seq<InSwap>, statics: seq<StaticSwap>)

  /** A swap with the label reserves its worst case while it is pending, and then
      counts with its cost if that falls into the budget period. */
  function FeeCharge(labelled: bool, pending: bool, inPeriod: bool, worstCase: int, cost: int): int {
    if !labelled then 0 else if pending then worstCase else if inPeriod then cost else 0
  }

  function SlotCharge(labelled: bool, pending: bool): int {
    if labelled && pending then 1 else 0
  }

  function OutCharge(p: Params, s: OutSwap): int {
    FeeCharge(s.labelled, s.state.IsPending(), s.updated > p.lastRefresh, WorstCaseOut(s.fees), s.cost)
  }

  function InCharge(p: Params, sweepFee: int, s: InSwap): int {
    FeeCharge(s.labelled, s.state.IsPending(), s.updated >= p.lastRefresh, WorstCaseIn(sweepFee, s.fees), s.cost)
  }

  function StaticReserve(sweepFee: int, s: StaticSwap): int {
    WorstCaseStatic(sweepFee, s.swapFee, s.defaultHtlcFee, s.storedHtlcFee)
  }

  function StaticCharge(p: Params, sweepFee: int, s: StaticSwap): int {
    FeeCharge(s.labelled, s.pending, s.updated >= p.lastRefresh, StaticReserve(sweepFee, s),
              if s.failed then StaticReserve(sweepFee, s) else s.swapFee)
  }

  function Sum(xs: seq<int>): int {
    if xs == [] then 0 else Sum(xs[..|xs| - 1]) + xs[|xs| - 1]
  }

  lemma SumGrows(xs: seq<int>, more: seq<int>, x: int)
    requires more == xs + [x]
    ensures Sum(more) == Sum(xs) + x
  {
    assert more[..|more| - 1] == xs;
  }

  function OutCharges(p: Params, outs: seq<OutSwap>): (charges: seq<int>)
    ensures |charges| == |outs| && forall i :: 0 <= i < |outs| ==> charges[i] == OutCharge(p, outs[i])
  {
    seq(|outs|, i requires 0 <= i < |outs| => OutCharge(p, outs[i]))
  }

  function InCharges(p: Params, sweepFee: int, ins: seq<InSwap>): (charges: seq<int>)
    ensures |charges| == |ins| && forall i :: 0 <= i < |ins| ==> charges[i] == InCharge(p, sweepFee, ins[i])
  {
    seq(|ins|, i requires 0 <= i < |ins| => InCharge(p, sweepFee, ins[i]))
  }

  function StaticCharges(p: Params, sweepFee: int, statics: seq<StaticSwap>): (charges: seq<int>)
    ensures |charges| == |statics|
    ensures forall i :: 0 <= i < |statics| ==> charges[i] == StaticCharge(p, sweepFee, statics[i])
  {
    seq(|statics|, i requires 0 <= i < |statics| => StaticCharge(p, sweepFee, statics[i]))
  }

  function OutSlots(outs: seq<OutSwap>): (slots: seq<int>)
    ensures |slots| == |outs|
    ensures forall i :: 0 <= i < |outs| ==> slots[i] == SlotCharge(outs[i].labelled, outs[i].state.IsPending())
  {
    seq(|outs|, i requires 0 <= i < |outs| => SlotCharge(outs[i].labelled, outs[i].state.IsPending()))
  }

  function InSlots(ins: seq<InSwap>): (slots: seq<int>)
    ensures |slots| == |ins|
    ensures forall i :: 0 <= i < |ins| ==> slots[i] == SlotCharge(ins[i].labelled, ins[i].state.IsPending())
  {
    seq(|ins|, i requires 0 <= i < |ins| => SlotCharge(ins[i].labelled, ins[i].state.IsPending()))
  }

  function StaticSlots(statics: seq<StaticSwap>): (slots: seq<int>)
    ensures |slots| == |statics|
    ensures forall i :: 0 <= i < |statics| ==> slots[i] == SlotCharge(statics[i].labelled, statics[i].pending)
  {
    seq(|statics|, i requires 0 <= i < |statics| => SlotCharge(statics[i].labelled, statics[i].pending))
  }

  /** What the planner's swaps have cost and may still cost. */
  function TotalFees(p: Params, sweepFee: int, l: Ledger): int {
    Sum(OutCharges(p, l.outs)) + Sum(InCharges(p, sweepFee, l.ins)) + Sum(StaticCharges(p, sweepFee, l.statics))
  }

  function InFlightCount(l: Ledger): int {
    Sum(OutSlots(l.outs)) + Sum(InSlots(l.ins)) + Sum(StaticSlots(l.statics))
  }

  datatype Traffic = Traffic(
    failedOut: set<ChanId>, ongoingOut: set<ChanId>, ongoingIn: set<Peer>, failedIn: set<Peer>)

  predicate RecentlyFailedOut(s: OutSwap, cutoff: int) {
    s.state.FailOffchainPayments? && s.updated > cutoff
  }

  predicate OngoingIn(s: InSwap) {
    s.state.IsPending() && !s.state.InvoiceSettled?
  }

  predicate RecentlyFailedIn(s: InSwap, cutoff: int) {
    s.state.FailTimeout? && s.updated > cutoff
  }

  predicate OngoingStatic(s: StaticSwap) {
    s.pending && s.blocks
  }

  predicate RecentlyFailedStatic(s: StaticSwap, cutoff: int) {
    !OngoingStatic(s) && s.failed && s.updated > cutoff
  }

  function FailedOutChans(outs: seq<OutSwap>, cutoff: int): set<ChanId> {
    set s, c | s in outs && RecentlyFailedOut(s, cutoff) && c in s.chans :: c
  }

  function OngoingOutChans(outs: seq<OutSwap>): set<ChanId> {
    set s, c | s in outs && s.state.IsPending() && c in s.chans :: c
  }

  function OngoingInPeers(ins: seq<InSwap>): set<Peer> {
    set s | s in ins && s.lastHop.Some? && OngoingIn(s) :: s.lastHop.value
  }

  function FailedInPeers(ins: seq<InSwap>, cutoff: int): set<Peer> {
    set s | s in ins && s.lastHop.Some? && RecentlyFailedIn(s, cutoff) :: s.lastHop.value
  }

  function OngoingStaticPeers(statics: seq<StaticSwap>): set<Peer> {
    set s | s in statics && s.lastHop.Some? && OngoingStatic(s) :: s.lastHop.value
  }

  function FailedStaticPeers(statics: seq<StaticSwap>, cutoff: int): set<Peer> {
    set s | s in statics && s.lastHop.Some? && RecentlyFailedStatic(s, cutoff) :: s.lastHop.value
  }

  function TrafficOf(l: Ledger, cutoff: int): Traffic {
    Traffic(FailedOutChans(l.outs, cutoff), OngoingOutChans(l.outs),
            OngoingInPeers(l.ins) + OngoingStaticPeers(l.statics),
            FailedInPeers(l.ins, cutoff) + FailedStaticPeers(l.statics, cutoff))
  }

  // ----- Channels -----

  /** The peers of the channels that can be looped. */
  function Known(channels: seq<Channel>): map<ChanId, Peer> {
    if channels == [] then map[]
    else
      var c := channels[|channels| - 1];
      var known := Known(channels[..|channels| - 1]);
      if c.custom then known else known[c.id := c.peer]
  }

  function Peers(channels: seq<Channel>): set<Peer> {
    set c | c in channels && !c.custom :: c.peer
  }

  function PeerChans(channels: seq<Channel>, peer: Peer): seq<ChanId> {
    if channels == [] then []
    else
      var c := channels[|channels| - 1];
      PeerChans(channels[..|channels| - 1], peer) + (if !c.custom && c.peer == peer then [c.id] else [])
  }

  function PeerCapacity(channels: seq<Channel>, peer: Peer): nat {
    if channels == [] then 0
    else
      var c := channels[|channels| - 1];
      PeerCapacity(channels[..|channels| - 1], peer) + (if !c.custom && c.peer == peer then c.capacity else 0)
  }

  function PeerIncoming(channels: seq<Channel>, peer: Peer): nat {
    if channels == [] then 0
    else
      var c := channels[|channels| - 1];
      PeerIncoming(channels[..|channels| - 1], peer) + (if !c.custom && c.peer == peer then c.remote else 0)
  }

  function PeerOutgoing(channels: seq<Channel>, peer: Peer): nat {
    if channels == [] then 0
    else
      var c := channels[|channels| - 1];
      PeerOutgoing(channels[..|channels| - 1], peer) + (if !c.custom && c.peer == peer then c.local else 0)
  }

  function PeerBalances(channels: seq<Channel>, peer: Peer): T.Balances {
    T.Balances(PeerCapacity(channels, peer), PeerIncoming(channels, peer), PeerOutgoing(channels, peer))
  }

  // ----- From a rule to a candidate -----

  function InUseOut(t: Traffic, peer: Peer, chans: seq<ChanId>): Option<Reason> {
    if chans == [] then (if peer in t.ongoingIn then Some(OngoingLoopIn) else None)
    else if chans[0] in t.failedOut then Some(FailureBackoff)
    else if chans[0] in t.ongoingOut then Some(OngoingLoopOut)
    else InUseOut(t, peer, chans[1..])
  }

  function InUseIn(t: Traffic, peer: Peer, chans: seq<ChanId>): Option<Reason> {
    if chans == [] then
      if peer in t.ongoingIn then Some(OngoingLoopIn)
      else if peer in t.failedIn then Some(FailureBackoff)
      else None
    else if chans[0] in t.ongoingOut then Some(OngoingLoopOut)
    else InUseIn(t, peer, chans[1..])
  }

  datatype Candidate =
    | Ready(request: Request)
    | StaticCandidate(peer: Peer, minAmount: int, amountHint: int, chans: seq<ChanId>)
  {
    function Amount(): int {
      if StaticCandidate? then amountHint
      else if request.StaticRequest? then request.prepared.amount
      else request.amount
    }
  }

  /** A rule to examine, or a channel that is skipped for its custom data. */
  datatype Item =
    | Examine(entity: Entity, peer: Peer, chans: seq<ChanId>, balances: T.Balances, rule: SwapRule)
    | Custom(chan: ChanId)
  {
    function Entity(): Entity {
      if Custom? then ChanEntity(chan) else entity
    }
  }

  ghost predicate ValidRules(p: Params) {
    && (forall q <- p.peerRules :: p.peerRules[q].rule.Valid())
    && (forall c <- p.chanRules :: p.chanRules[c].rule.Valid() && p.chanRules[c].swapType.LoopOut?)
  }

  function SuggestSwap(p: Params, o: Outside, t: Traffic, item: Item): Reply<Candidate>
    requires item.Examine? && item.rule.rule.Valid()
  {
    match item.rule.swapType
    case LoopOut =>
      (match o.mayLoopOut
       case Refused(reason) => Refused(reason)
       case Broken => Broken
       case Got(_) =>
         match InUseOut(t, item.peer, item.chans)
         case Some(reason) => Refused(reason)
         case None =>
           var amount := T.SwapAmount(item.rule.rule, item.balances, o.outLimits, T.LoopOut);
           if amount == 0 then Refused(LiquidityOk)
           else match o.quoteOut(item.entity, amount)
             case Refused(reason) => Refused(reason)
             case Broken => Broken
             case Got(fees) => Got(Ready(OutRequest(item.chans, amount, fees, p.autoloop))))
    case LoopIn =>
      match InUseIn(t, item.peer, item.chans)
      case Some(reason) => Refused(reason)
      case None =>
        var amount := T.SwapAmount(item.rule.rule, item.balances, o.inLimits, T.LoopIn);
        if amount == 0 then Refused(LiquidityOk)
        else if p.staticSource then Got(StaticCandidate(item.peer, o.inLimits.minimum, amount, item.chans))
        else match o.quoteIn(item.entity, amount)
          case Refused(reason) => Refused(reason)
          case Broken => Broken
          case Got(fees) => Got(Ready(InRequest(item.peer, amount, fees, p.autoloop)))
  }

  function PeerItems(p: Params, channels: seq<Channel>, order: seq<Peer>): seq<Item> {
    if order == [] then []
    else
      var q := order[|order| - 1];
      PeerItems(p, channels, order[..|order| - 1])
      + (if q in p.peerRules
         then [Examine(PeerEntity(q), q, PeerChans(channels, q), PeerBalances(channels, q), p.peerRules[q])]
         else [])
  }

  function ChanItems(p: Params, channels: seq<Channel>): seq<Item> {
    if channels == [] then []
    else
      var c := channels[|channels| - 1];
      ChanItems(p, channels[..|channels| - 1])
      + (if c.custom then [Custom(c.id)]
         else if c.id in p.chanRules
         then [Examine(ChanEntity(c.id), c.peer, [c.id], T.Balances(c.capacity, c.remote, c.local), p.chanRules[c.id])]
         else [])
  }

  ghost predicate ValidItems(items: seq<Item>) {
    forall item <- items :: item.Examine? ==> item.rule.rule.Valid()
  }

  datatype Draft = Draft(candidates: seq<Candidate>, disqualified: map<Entity, Reason>)

  function Collected(p: Params, o: Outside, t: Traffic, draft: Draft, item: Item): Option<Draft>
    requires item.Examine? ==> item.rule.rule.Valid()
  {
    if item.Custom? then Some(draft.(disqualified := draft.disqualified[item.Entity() := CustomChannelData]))
    else
      match SuggestSwap(p, o, t, item)
      case Got(c) => Some(draft.(candidates := draft.candidates + [c]))
      case Refused(reason) => Some(draft.(disqualified := draft.disqualified[item.Entity() := reason]))
      case Broken => None
  }

  function Collect(p: Params, o: Outside, t: Traffic, items: seq<Item>): Option<Draft>
    requires ValidItems(items)
  {
    if items == [] then Some(Draft([], map[]))
    else
      match Collect(p, o, t, items[..|items| - 1])
      case None => None
      case Some(draft) => Collected(p, o, t, draft, items[|items| - 1])
  }

  // ----- Sorting -----

  function Insert(x: Candidate, s: seq<Candidate>): seq<Candidate> {
    if s == [] || x.Amount() >= s[0].Amount() then [x] + s else [s[0]] + Insert(x, s[1..])
  }

  /** The stable sort by descending amount. */
  function Sort(s: seq<Candidate>): seq<Candidate> {
    if s == [] then [] else Insert(s[0], Sort(s[1..]))
  }

  // ----- Allocation -----

  /** Unknown channels are attributed to the zero key. */
  const ZERO_PEER: Peer := 0

  function RequestPeers(known: map<ChanId, Peer>, r: Request): set<Peer> {
    match r
    case OutRequest(chans, _, _, _) => set c | c in chans :: if c in known then known[c] else ZERO_PEER
    case InRequest(peer, _, _, _) => {peer}
    case StaticRequest(peer, _, _) => {peer}
  }

  function RequestChans(r: Request): set<ChanId> {
    if r.OutRequest? then set c | c in r.chans else {}
  }

  /** Those of the peers and channels that have rules. */
  function Ruled(p: Params, peers: set<Peer>, chans: set<ChanId>): set<Entity> {
    (set q | q in peers && q in p.peerRules :: PeerEntity(q))
    + (set c | c in chans && c in p.chanRules :: ChanEntity(c))
  }

  function RequestEntities(p: Params, known: map<ChanId, Peer>, r: Request): set<Entity> {
    Ruled(p, RequestPeers(known, r), RequestChans(r))
  }

  function CandidateEntities(p: Params, known: map<ChanId, Peer>, c: Candidate): set<Entity> {
    match c
    case Ready(r) => RequestEntities(p, known, r)
    case StaticCandidate(peer, _, _, chans) => Ruled(p, {peer}, set x | x in chans)
  }

  datatype Plan = Plan(
    available: int, accepted: seq<Request>, disqualified: map<Entity, Reason>, excluded: seq<Outpoint>)

  function SetReason(plan: Plan, entities: set<Entity>, reason: Reason): Plan {
    plan.(disqualified := plan.disqualified + map e | e in entities :: reason)
  }

  /** The swap of a candidate, and the deposits excluded from then on. */
  function Prepare(p: Params, o: Outside, excluded: seq<Outpoint>, c: Candidate): Reply<(Request, seq<Outpoint>)> {
    match c
    case Ready(r) => Got((r, excluded))
    case StaticCandidate(peer, minAmount, amountHint, _) =>
      match o.prepare(peer, minAmount, amountHint, excluded)
      case Got(prepared) => Got((StaticRequest(peer, prepared, p.autoloop), excluded + prepared.deposits))
      case Refused(reason) => Refused(reason)
      case Broken => Broken
  }

  function Decide(sweepFee: int, plan: Plan, allowed: int, entities: set<Entity>, r: Request): Plan {
    if plan.available == 0 then SetReason(plan, entities, BudgetInsufficient)
    else if |plan.accepted| == allowed then SetReason(plan, entities, InFlight)
    else if WorstCase(sweepFee, r) <= plan.available
    then plan.(available := plan.available - WorstCase(sweepFee, r), accepted := plan.accepted + [r])
    else SetReason(plan, entities, BudgetInsufficient)
  }

  function Consider(
      p: Params, o: Outside, known: map<ChanId, Peer>, allowed: int, plan: Plan, c: Candidate): Option<Plan>
  {
    var entities := CandidateEntities(p, known, c);
    match Prepare(p, o, plan.excluded, c)
    case Broken => None
    case Refused(reason) => Some(SetReason(plan, entities, reason))
    case Got((r, excluded)) => Some(Decide(o.sweepFee, plan.(excluded := excluded), allowed, entities, r))
  }

  function Allocate(
      p: Params, o: Outside, known: map<ChanId, Peer>, allowed: int, start: Plan,
      candidates: seq<Candidate>): Option<Plan>
  {
    if candidates == [] then Some(start)
    else
      match Allocate(p, o, known, allowed, start, candidates[..|candidates| - 1])
      case None => None
      case Some(plan) => Consider(p, o, known, allowed, plan, candidates[|candidates| - 1])
  }

  // ----- The pass -----

  datatype Suggestions = Suggestions(accepted: seq<Request>, disqualified: map<Entity, Reason>)

  function AllRules(p: Params): set<Entity> {
    (set q | q in p.peerRules :: PeerEntity(q)) + (set c | c in p.chanRules :: ChanEntity(c))
  }

  function SingleReason(p: Params, reason: Reason): Suggestions {
    Suggestions([], map e | e in AllRules(p) :: reason)
  }

  function Items(p: Params, channels: seq<Channel>, order: seq<Peer>): seq<Item> {
    PeerItems(p, channels, order) + ChanItems(p, channels)
  }

  function Fill(
      p: Params, o: Outside, known: map<ChanId, Peer>, available: int, allowed: int, draft: Draft): Option<Suggestions>
  {
    match Allocate(p, o, known, allowed, Plan(available, [], draft.disqualified, []), Sort(draft.candidates))
    case None => None
    case Some(plan) => Some(Suggestions(plan.accepted, plan.disqualified))
  }

  /** The rules are only examined once there is budget and room for more swaps. */
  function Conclude(
      p: Params, o: Outside, known: map<ChanId, Peer>, total: int, inFlight: int,
      draft: Option<Draft>): Option<Suggestions>
  {
    var allowed := p.maxInFlight - inFlight;
    if p.peerRules == map[] && p.chanRules == map[] then None
    else if total >= p.budget then Some(SingleReason(p, BudgetElapsed))
    else if allowed <= 0 then Some(SingleReason(p, InFlight))
    else if draft.None? then None
    else Fill(p, o, known, p.budget - total, allowed, draft.value)
  }

  function Examined(p: Params, o: Outside, l: Ledger, channels: seq<Channel>, order: seq<Peer>): Option<Draft>
    requires ValidRules(p)
  {
    ItemsValid(p, channels, order);
    Collect(p, o, TrafficOf(l, o.failureCutoff), Items(p, channels, order))
  }

  function SuggestSwaps(p: Params, o: Outside, l: Ledger, channels: seq<Channel>, order: seq<Peer>): Option<Suggestions>
    requires ValidRules(p)
  {
    Conclude(p, o, Known(channels), TotalFees(p, o.sweepFee, l), InFlightCount(l), Examined(p, o, l, channels, order))
  }

  lemma {:induction false} PeerItemsValid(p: Params, channels: seq<Channel>, order: seq<Peer>)
    requires ValidRules(p)
    ensures ValidItems(PeerItems(p, channels, order))
  {
    if order != [] {
      PeerItemsValid(p, channels, order[..|order| - 1]);
    }
  }

  lemma {:induction false} ChanItemsValid(p: Params, channels: seq<Channel>)
    requires ValidRules(p)
    ensures ValidItems(ChanItems(p, channels))
  {
    if channels != [] {
      ChanItemsValid(p, channels[..|channels| - 1]);
    }
  }

  lemma ItemsValid(p: Params, channels: seq<Channel>, order: seq<Peer>)
    requires ValidRules(p)
    ensures ValidItems(Items(p, channels, order))
  {
    PeerItemsValid(p, channels, order);
    ChanItemsValid(p, channels);
  }

  // ----- Budget and slots of one pass -----

  function Fees(sweepFee: int, rs: seq<Request>): int {
    if rs == [] then 0 else Fees(sweepFee, rs[..|rs| - 1]) + WorstCase(sweepFee, rs[|rs| - 1])
  }

  lemma {:induction false} AllocateBounded(
      p: Params, o: Outside, known: map<ChanId, Peer>, allowed: int, start: Plan, candidates: seq<Candidate>)
    requires start.available >= 0 && start.accepted == [] && allowed >= 0
    requires Allocate(p, o, known, allowed, start, candidates).Some?
    ensures var plan := Allocate(p, o, known, allowed, start, candidates).value;
            && plan.available >= 0
            && plan.available + Fees(o.sweepFee, plan.accepted) == start.available
            && |plan.accepted| <= allowed
  {
    if candidates != [] {
      AllocateBounded(p, o, known, allowed, start, candidates[..|candidates| - 1]);
      var before := Allocate(p, o, known, allowed, start, candidates[..|candidates| - 1]).value;
      var plan := Allocate(p, o, known, allowed, start, candidates).value;
      if plan.accepted != before.accepted {
        assert plan.accepted[..|plan.accepted| - 1] == before.accepted;
      }
    }
  }

  lemma ConcludeBounded(
      p: Params, o: Outside, known: map<ChanId, Peer>, total: int, inFlight: int, draft: Option<Draft>)
    requires Conclude(p, o, known, total, inFlight, draft).Some?
    ensures var accepted := Conclude(p, o, known, total, inFlight, draft).value.accepted;
            accepted != [] ==>
              && total + Fees(o.sweepFee, accepted) <= p.budget
              && inFlight + |accepted| <= p.maxInFlight
  {
    var available, allowed := p.budget - total, p.maxInFlight - inFlight;
    if available > 0 && allowed > 0 {
      AllocateBounded(p, o, known, allowed, Plan(available, [], draft.value.disqualified, []),
                      Sort(draft.value.candidates));
    }
  }

  lemma PassBounded(p: Params, o: Outside, l: Ledger, channels: seq<Channel>, order: seq<Peer>)
    requires ValidRules(p) && SuggestSwaps(p, o, l, channels, order).Some?
    ensures var accepted := SuggestSwaps(p, o, l, channels, order).value.accepted;
            accepted != [] ==>
              && TotalFees(p, o.sweepFee, l) + Fees(o.sweepFee, accepted) <= p.budget
              && InFlightCount(l) + |accepted| <= p.maxInFlight
  {
    ConcludeBounded(p, o, Known(channels), TotalFees(p, o.sweepFee, l), InFlightCount(l),
                    Examined(p, o, l, channels, order));
  }
}
