/** The planner explains itself: every rule that it examines ends either in an
    accepted swap or in a reason, and accepted swaps share neither channels nor
    deposits. */
module PlannerPartition {
  import opened Options
  import opened Planner

  ghost predicate UniqueIds(channels: seq<Channel>) {
    forall i, j :: 0 <= i < j < |channels| ==> channels[i].id != channels[j].id
  }

  /** A peer with a rule has no channel with a rule. */
  ghost predicate ExclusiveRules(p: Params, channels: seq<Channel>) {
    forall c <- channels :: !(c.peer in p.peerRules && c.id in p.chanRules)
  }

  ghost predicate Enumerates(order: seq<Peer>, peers: set<Peer>) {
    && (forall q :: q in order <==> q in peers)
    && (forall i, j :: 0 <= i < j < |order| ==> order[i] != order[j])
  }

  // ----- What the items are -----

  ghost predicate ItemOk(p: Params, known: map<ChanId, Peer>, item: Item) {
    match item
    case Custom(x) => x !in known
    case Examine(PeerEntity(q), peer, chans, _, _) =>
      && q == peer && q in p.peerRules && chans != []
      && (forall x <- chans :: x in known && known[x] == q && x !in p.chanRules)
      && (forall x <- known :: known[x] == q ==> x in chans)
    case Examine(ChanEntity(x), peer, chans, _, rule) =>
      && x in known && known[x] == peer && chans == [x]
      && x in p.chanRules && peer !in p.peerRules && rule.swapType.LoopOut?
  }

  ghost predicate DistinctEntities(items: seq<Item>) {
    forall i, j :: 0 <= i < j < |items| ==> items[i].Entity() != items[j].Entity()
  }

  ghost function ItemEntities(items: seq<Item>): set<Entity> {
    set item | item in items :: item.Entity()
  }

  lemma ItemEntitiesGrow(items: seq<Item>, item: Item)
    ensures ItemEntities(items + [item]) == ItemEntities(items) + {item.Entity()}
  {
  }

  /** What a pass examines: the peers with a rule, the channels with a rule, and the
      channels with custom data. */
  ghost function ExaminedEntities(p: Params, channels: seq<Channel>): set<Entity> {
    (set q | q in Peers(channels) && q in p.peerRules :: PeerEntity(q)) + ChansRuled(p, channels)
  }

  ghost function ChansRuled(p: Params, channels: seq<Channel>): set<Entity> {
    set c | c in channels && (c.custom || c.id in p.chanRules) :: ChanEntity(c.id)
  }

  ghost function PeersRuled(p: Params, order: seq<Peer>): set<Entity> {
    set q | q in order && q in p.peerRules :: PeerEntity(q)
  }

  lemma ChansRuledGrow(p: Params, channels: seq<Channel>, c: Channel)
    ensures ChansRuled(p, channels + [c])
         == ChansRuled(p, channels) + (if c.custom || c.id in p.chanRules then {ChanEntity(c.id)} else {})
  {
  }

  lemma PeersRuledGrow(p: Params, order: seq<Peer>, q: Peer)
    ensures PeersRuled(p, order + [q]) == PeersRuled(p, order) + (if q in p.peerRules then {PeerEntity(q)} else {})
  {
  }

  lemma {:induction false} KnownExactly(channels: seq<Channel>)
    requires UniqueIds(channels)
    ensures forall c <- channels ::
              if c.custom then c.id !in Known(channels)
              else c.id in Known(channels) && Known(channels)[c.id] == c.peer
    ensures forall x <- Known(channels) :: exists c <- channels :: c.id == x
  {
    if channels != [] {
      var init, c := channels[..|channels| - 1], channels[|channels| - 1];
      KnownExactly(init);
      assert channels == init + [c];
      assert forall d <- init :: d.id != c.id by {
        assert forall k :: 0 <= k < |init| ==> init[k] == channels[k];
      }
    }
  }

  lemma {:induction false} PeerChansExactly(channels: seq<Channel>, q: Peer)
    ensures forall x :: x in PeerChans(channels, q) <==> exists c <- channels :: c.id == x && !c.custom && c.peer == q
  {
    if channels != [] {
      var init, c := channels[..|channels| - 1], channels[|channels| - 1];
      PeerChansExactly(init, q);
      assert channels == init + [c];
    }
  }

  lemma PeerItemOk(p: Params, channels: seq<Channel>, q: Peer, item: Item)
    requires UniqueIds(channels) && ExclusiveRules(p, channels)
    requires q in Peers(channels) && q in p.peerRules
    requires item.Examine? && item.entity == PeerEntity(q) && item.peer == q && item.chans == PeerChans(channels, q)
    ensures ItemOk(p, Known(channels), item)
  {
    KnownExactly(channels);
    PeerChansExactly(channels, q);
    var c :| c in channels && !c.custom && c.peer == q;
    assert c.id in item.chans;
  }

  /** Items as they should be, each for an entity of its own. */
  ghost predicate ItemsFor(p: Params, known: map<ChanId, Peer>, items: seq<Item>, entities: set<Entity>) {
    && (forall item <- items :: ItemOk(p, known, item))
    && DistinctEntities(items)
    && ItemEntities(items) == entities
  }

  lemma ItemsGrow(p: Params, known: map<ChanId, Peer>, items: seq<Item>, item: Item, entities: set<Entity>)
    requires ItemsFor(p, known, items, entities) && ItemOk(p, known, item) && item.Entity() !in entities
    ensures ItemsFor(p, known, items + [item], entities + {item.Entity()})
  {
    ItemEntitiesGrow(items, item);
    forall i | 0 <= i < |items|
      ensures items[i].Entity() != item.Entity()
    {
      assert items[i].Entity() in ItemEntities(items);
    }
  }

  lemma {:induction false} PeerItemsOk(p: Params, channels: seq<Channel>, order: seq<Peer>)
    requires UniqueIds(channels) && ExclusiveRules(p, channels)
    requires forall q <- order :: q in Peers(channels)
    requires forall i, j :: 0 <= i < j < |order| ==> order[i] != order[j]
    ensures ItemsFor(p, Known(channels), PeerItems(p, channels, order), PeersRuled(p, order))
  {
    if order != [] {
      var init, q := order[..|order| - 1], order[|order| - 1];
      PeerItemsOk(p, channels, init);
      assert order == init + [q];
      PeersRuledGrow(p, init, q);
      if q in p.peerRules {
        var item := Examine(PeerEntity(q), q, PeerChans(channels, q), PeerBalances(channels, q), p.peerRules[q]);
        PeerItemOk(p, channels, q, item);
        assert PeerEntity(q) !in PeersRuled(p, init);
        ItemsGrow(p, Known(channels), PeerItems(p, channels, init), item, PeersRuled(p, init));
      } else {
        assert PeerItems(p, channels, order) == PeerItems(p, channels, init);
      }
    }
  }

  lemma ChanItemOk(p: Params, channels: seq<Channel>, c: Channel, item: Item)
    requires ValidRules(p) && UniqueIds(channels) && ExclusiveRules(p, channels) && c in channels
    requires if c.custom then item == Custom(c.id)
             else c.id in p.chanRules && item.Examine? && item.entity == ChanEntity(c.id) && item.peer == c.peer
                  && item.chans == [c.id] && item.rule == p.chanRules[c.id]
    ensures ItemOk(p, Known(channels), item)
  {
    KnownExactly(channels);
  }

  lemma {:induction false} ChanItemsOk(p: Params, all: seq<Channel>, channels: seq<Channel>)
    requires ValidRules(p) && UniqueIds(all) && ExclusiveRules(p, all) && channels <= all
    ensures ItemsFor(p, Known(all), ChanItems(p, channels), ChansRuled(p, channels))
  {
    if channels != [] {
      var init, c := channels[..|channels| - 1], channels[|channels| - 1];
      ChanItemsOk(p, all, init);
      assert channels == init + [c] && all[|init|] == c;
      ChansRuledGrow(p, init, c);
      var items := ChanItems(p, channels);
      if c.custom || c.id in p.chanRules {
        var item := items[|items| - 1];
        ChanItemOk(p, all, c, item);
        NotRuledBefore(p, all, init, c);
        assert items == ChanItems(p, init) + [item];
        ItemsGrow(p, Known(all), ChanItems(p, init), item, ChansRuled(p, init));
      } else {
        assert items == ChanItems(p, init);
      }
    }
  }

  lemma NotRuledBefore(p: Params, all: seq<Channel>, init: seq<Channel>, c: Channel)
    requires UniqueIds(all) && init + [c] <= all
    ensures ChanEntity(c.id) !in ChansRuled(p, init)
  {
    assert all[|init|] == c;
    forall d <- init
      ensures d.id != c.id
    {
      var k :| 0 <= k < |init| && init[k] == d;
      assert all[k] == d;
    }
  }

  lemma ItemEntitiesJoin(a: seq<Item>, b: seq<Item>)
    ensures ItemEntities(a + b) == ItemEntities(a) + ItemEntities(b)
  {
  }

  lemma ItemsOk(p: Params, channels: seq<Channel>, order: seq<Peer>)
    requires ValidRules(p) && UniqueIds(channels) && ExclusiveRules(p, channels) && Enumerates(order, Peers(channels))
    ensures var items := Items(p, channels, order);
            && (forall item <- items :: ItemOk(p, Known(channels), item))
            && DistinctEntities(items)
            && ItemEntities(items) == ExaminedEntities(p, channels)
  {
    PeerItemsOk(p, channels, order);
    ChanItemsOk(p, channels, channels);
    var a, b := PeerItems(p, channels, order), ChanItems(p, channels);
    var items := Items(p, channels, order);
    ItemEntitiesJoin(a, b);
    assert PeersRuled(p, order) == set q | q in Peers(channels) && q in p.peerRules :: PeerEntity(q);
    forall i, j | 0 <= i < j < |items|
      ensures items[i].Entity() != items[j].Entity()
    {
      if i < |a| <= j {
        assert items[i].Entity() in ItemEntities(a) && items[j].Entity() in ItemEntities(b);
      }
    }
  }

  // ----- Candidates -----

  ghost function CandidateChans(c: Candidate): set<ChanId> {
    match c
    case Ready(r) => RequestChans(r)
    case StaticCandidate(_, _, _, chans) => set x | x in chans
  }

  /** All that a candidate may mark or use. */
  ghost function Footprint(p: Params, known: map<ChanId, Peer>, c: Candidate): set<Entity> {
    CandidateEntities(p, known, c) + set x | x in CandidateChans(c) :: ChanEntity(x)
  }

  ghost function ItemFootprint(item: Item): set<Entity> {
    {item.Entity()} + (if item.Examine? then set x | x in item.chans :: ChanEntity(x) else {})
  }

  lemma ItemsApart(p: Params, known: map<ChanId, Peer>, a: Item, b: Item)
    requires ItemOk(p, known, a) && ItemOk(p, known, b) && a.Entity() != b.Entity()
    ensures ItemFootprint(a) !! ItemFootprint(b)
  {
  }

  ghost predicate CandidateOk(p: Params, c: Candidate) {
    c.StaticCandidate? ==> forall x <- c.chans :: x !in p.chanRules
  }

  lemma CandidateOfItem(p: Params, o: Outside, t: Traffic, known: map<ChanId, Peer>, item: Item)
    requires item.Examine? && item.rule.rule.Valid() && ItemOk(p, known, item)
    requires SuggestSwap(p, o, t, item).Got?
    ensures var c := SuggestSwap(p, o, t, item).value;
            && CandidateOk(p, c)
            && CandidateEntities(p, known, c) == {item.Entity()}
            && Footprint(p, known, c) <= ItemFootprint(item)
  {
    var c := SuggestSwap(p, o, t, item).value;
    if c.Ready? && c.request.OutRequest? {
      var first: ChanId := item.chans[0];
      assert first in item.chans && known[first] == item.peer;
      assert RequestPeers(known, c.request) == {item.peer};
    }
  }

  ghost function Entities(p: Params, known: map<ChanId, Peer>, cs: seq<Candidate>): set<Entity> {
    set c, e | c in cs && e in CandidateEntities(p, known, c) :: e
  }

  ghost predicate Apart(p: Params, known: map<ChanId, Peer>, cs: seq<Candidate>) {
    forall i, j :: 0 <= i < j < |cs| ==> Footprint(p, known, cs[i]) !! Footprint(p, known, cs[j])
  }

  ghost predicate DraftOk(p: Params, known: map<ChanId, Peer>, items: seq<Item>, draft: Draft) {
    && draft.disqualified.Keys + Entities(p, known, draft.candidates) == ItemEntities(items)
    && draft.disqualified.Keys !! Entities(p, known, draft.candidates)
    && Apart(p, known, draft.candidates)
    && (forall c <- draft.candidates :: CandidateOk(p, c))
    && (forall c <- draft.candidates :: exists item <- items :: Footprint(p, known, c) <= ItemFootprint(item))
  }

  lemma EntitiesGrow(p: Params, known: map<ChanId, Peer>, cs: seq<Candidate>, c: Candidate)
    ensures Entities(p, known, cs + [c]) == Entities(p, known, cs) + CandidateEntities(p, known, c)
  {
  }

  lemma ApartGrow(p: Params, known: map<ChanId, Peer>, cs: seq<Candidate>, c: Candidate)
    requires Apart(p, known, cs) && forall d <- cs :: Footprint(p, known, d) !! Footprint(p, known, c)
    ensures Apart(p, known, cs + [c])
  {
  }

  lemma CollectedApart(
      p: Params, known: map<ChanId, Peer>, items: seq<Item>, item: Item, cs: seq<Candidate>, c: Candidate)
    requires ItemOk(p, known, item) && forall it <- items :: ItemOk(p, known, it)
    requires item.Entity() !in ItemEntities(items)
    requires Apart(p, known, cs) && forall d <- cs :: exists it <- items :: Footprint(p, known, d) <= ItemFootprint(it)
    requires Footprint(p, known, c) <= ItemFootprint(item)
    ensures Apart(p, known, cs + [c])
    ensures forall d <- cs + [c] :: exists it <- items + [item] :: Footprint(p, known, d) <= ItemFootprint(it)
  {
    forall d <- cs
      ensures Footprint(p, known, d) !! Footprint(p, known, c)
      ensures exists it <- items + [item] :: Footprint(p, known, d) <= ItemFootprint(it)
    {
      var it :| it in items && Footprint(p, known, d) <= ItemFootprint(it);
      ItemsApart(p, known, it, item);
      assert it in items + [item];
    }
    ApartGrow(p, known, cs, c);
    assert item in items + [item];
  }

  lemma DraftRefused(p: Params, known: map<ChanId, Peer>, items: seq<Item>, item: Item, draft: Draft, reason: Reason)
    requires DraftOk(p, known, items, draft) && item.Entity() !in ItemEntities(items)
    ensures DraftOk(p, known, items + [item], draft.(disqualified := draft.disqualified[item.Entity() := reason]))
  {
    ItemEntitiesGrow(items, item);
    forall c <- draft.candidates
      ensures exists it <- items + [item] :: Footprint(p, known, c) <= ItemFootprint(it)
    {
      var it :| it in items && Footprint(p, known, c) <= ItemFootprint(it);
      assert it in items + [item];
    }
  }

  lemma DraftGot(p: Params, known: map<ChanId, Peer>, items: seq<Item>, item: Item, draft: Draft, c: Candidate)
    requires DraftOk(p, known, items, draft) && item.Entity() !in ItemEntities(items)
    requires ItemOk(p, known, item) && forall it <- items :: ItemOk(p, known, it)
    requires CandidateOk(p, c) && CandidateEntities(p, known, c) == {item.Entity()}
    requires Footprint(p, known, c) <= ItemFootprint(item)
    ensures DraftOk(p, known, items + [item], draft.(candidates := draft.candidates + [c]))
  {
    ItemEntitiesGrow(items, item);
    EntitiesGrow(p, known, draft.candidates, c);
    CollectedApart(p, known, items, item, draft.candidates, c);
  }

  lemma LastIsNew(items: seq<Item>)
    requires items != [] && DistinctEntities(items)
    ensures items[|items| - 1].Entity() !in ItemEntities(items[..|items| - 1])
  {
  }

  lemma {:induction false} CollectOk(p: Params, o: Outside, t: Traffic, known: map<ChanId, Peer>, items: seq<Item>)
    requires ValidItems(items) && DistinctEntities(items)
    requires forall item <- items :: ItemOk(p, known, item)
    requires Collect(p, o, t, items).Some?
    ensures DraftOk(p, known, items, Collect(p, o, t, items).value)
  {
    if items != [] {
      var init, item := items[..|items| - 1], items[|items| - 1];
      CollectOk(p, o, t, known, init);
      var before := Collect(p, o, t, init).value;
      LastIsNew(items);
      assert items == init + [item] && item in items;
      if item.Custom? {
        DraftRefused(p, known, init, item, before, CustomChannelData);
      } else {
        match SuggestSwap(p, o, t, item)
        case Got(c) =>
          CandidateOfItem(p, o, t, known, item);
          DraftGot(p, known, init, item, before, c);
        case Refused(reason) =>
          DraftRefused(p, known, init, item, before, reason);
      }
    }
  }

  // ----- Sorting -----

  lemma ApartCons(p: Params, known: map<ChanId, Peer>, h: Candidate, t: seq<Candidate>)
    requires Apart(p, known, t) && forall c <- t :: Footprint(p, known, h) !! Footprint(p, known, c)
    ensures Apart(p, known, [h] + t)
  {
  }

  lemma {:induction false} InsertMembers(x: Candidate, s: seq<Candidate>)
    ensures multiset(Insert(x, s)) == multiset{x} + multiset(s)
  {
    if s != [] && x.Amount() < s[0].Amount() {
      InsertMembers(x, s[1..]);
      assert s == [s[0]] + s[1..];
    }
  }

  lemma InsertMembership(x: Candidate, s: seq<Candidate>)
    ensures forall c :: c in Insert(x, s) <==> c == x || c in s
  {
  }

  lemma {:induction false} InsertApart(p: Params, known: map<ChanId, Peer>, x: Candidate, s: seq<Candidate>)
    requires Apart(p, known, s) && forall c <- s :: Footprint(p, known, x) !! Footprint(p, known, c)
    ensures Apart(p, known, Insert(x, s))
  {
    if s == [] || x.Amount() >= s[0].Amount() {
      ApartCons(p, known, x, s);
    } else {
      InsertApart(p, known, x, s[1..]);
      InsertMembership(x, s[1..]);
      ApartCons(p, known, s[0], Insert(x, s[1..]));
    }
  }

  ghost predicate Descending(s: seq<Candidate>) {
    forall i :: 0 < i < |s| ==> s[i - 1].Amount() >= s[i].Amount()
  }

  lemma {:induction false} InsertDescending(x: Candidate, s: seq<Candidate>)
    requires Descending(s)
    ensures Descending(Insert(x, s))
    ensures Insert(x, s)[0] == x || (s != [] && Insert(x, s)[0] == s[0])
  {
    if s != [] && x.Amount() < s[0].Amount() {
      InsertDescending(x, s[1..]);
    }
  }

  /** Sorting keeps the candidates, each as often as it was, and orders them. */
  lemma {:induction false} SortCorrect(s: seq<Candidate>)
    ensures multiset(Sort(s)) == multiset(s) && Descending(Sort(s))
  {
    if s != [] {
      SortCorrect(s[1..]);
      InsertMembers(s[0], Sort(s[1..]));
      InsertDescending(s[0], Sort(s[1..]));
      assert s == [s[0]] + s[1..];
    }
  }

  function Keep(c: Candidate, amount: int): seq<Candidate> {
    if c.Amount() == amount then [c] else []
  }

  function OfAmount(s: seq<Candidate>, amount: int): seq<Candidate> {
    if s == [] then [] else Keep(s[0], amount) + OfAmount(s[1..], amount)
  }

  lemma OfAmountCons(c: Candidate, s: seq<Candidate>, amount: int)
    ensures OfAmount([c] + s, amount) == Keep(c, amount) + OfAmount(s, amount)
  {
    assert ([c] + s)[1..] == s;
  }

  lemma {:induction false} InsertStable(x: Candidate, s: seq<Candidate>, amount: int)
    ensures OfAmount(Insert(x, s), amount) == Keep(x, amount) + OfAmount(s, amount)
  {
    if s == [] || x.Amount() >= s[0].Amount() {
      OfAmountCons(x, s, amount);
    } else {
      var rest := Insert(x, s[1..]);
      InsertStable(x, s[1..], amount);
      OfAmountCons(s[0], rest, amount);
      assert Keep(s[0], amount) == [] || Keep(x, amount) == [];
      assert OfAmount(rest, amount) == Keep(x, amount) + OfAmount(s[1..], amount);
    }
  }

  /** Candidates of the same amount keep their order. */
  lemma {:induction false} SortStable(s: seq<Candidate>, amount: int)
    ensures OfAmount(Sort(s), amount) == OfAmount(s, amount)
  {
    if s != [] {
      SortStable(s[1..], amount);
      InsertStable(s[0], Sort(s[1..]), amount);
    }
  }

  lemma SortMembership(s: seq<Candidate>)
    ensures forall c :: c in Sort(s) <==> c in s
  {
    SortCorrect(s);
    assert forall c :: c in Sort(s) <==> c in multiset(Sort(s));
  }

  lemma {:induction false} SortApart(p: Params, known: map<ChanId, Peer>, s: seq<Candidate>)
    requires Apart(p, known, s)
    ensures Apart(p, known, Sort(s))
  {
    if s != [] {
      SortApart(p, known, s[1..]);
      SortMembership(s[1..]);
      InsertApart(p, known, s[0], Sort(s[1..]));
    }
  }

  // ----- Allocation -----

  ghost function AcceptedEntities(p: Params, known: map<ChanId, Peer>, rs: seq<Request>): set<Entity> {
    set r, e | r in rs && e in RequestEntities(p, known, r) :: e
  }

  ghost predicate Partitioned(p: Params, known: map<ChanId, Peer>, plan: Plan, entities: set<Entity>) {
    && plan.disqualified.Keys + AcceptedEntities(p, known, plan.accepted) == entities
    && plan.disqualified.Keys !! AcceptedEntities(p, known, plan.accepted)
  }

  lemma ReasonPartitions(
      p: Params, known: map<ChanId, Peer>, plan: Plan, more: set<Entity>, reason: Reason, entities: set<Entity>)
    requires Partitioned(p, known, plan, entities) && more !! entities
    ensures Partitioned(p, known, SetReason(plan, more, reason), entities + more)
  {
    assert SetReason(plan, more, reason).disqualified.Keys == plan.disqualified.Keys + more;
  }

  lemma AcceptPartitions(
      p: Params, known: map<ChanId, Peer>, plan: Plan, r: Request, available: int, entities: set<Entity>)
    requires Partitioned(p, known, plan, entities) && RequestEntities(p, known, r) !! entities
    ensures Partitioned(p, known, plan.(available := available, accepted := plan.accepted + [r]),
                        entities + RequestEntities(p, known, r))
  {
    var all := plan.accepted + [r];
    assert AcceptedEntities(p, known, all) == AcceptedEntities(p, known, plan.accepted) + RequestEntities(p, known, r);
  }

  lemma DecidePartitions(
      p: Params, sweepFee: int, known: map<ChanId, Peer>, allowed: int, plan: Plan, r: Request, entities: set<Entity>)
    requires Partitioned(p, known, plan, entities) && RequestEntities(p, known, r) !! entities
    ensures Partitioned(p, known, Decide(sweepFee, plan, allowed, RequestEntities(p, known, r), r),
                        entities + RequestEntities(p, known, r))
  {
    if Decide(sweepFee, plan, allowed, RequestEntities(p, known, r), r).accepted != plan.accepted {
      AcceptPartitions(p, known, plan, r, plan.available - WorstCase(sweepFee, r), entities);
    } else {
      ReasonPartitions(p, known, plan, RequestEntities(p, known, r), BudgetInsufficient, entities);
      ReasonPartitions(p, known, plan, RequestEntities(p, known, r), InFlight, entities);
    }
  }

  lemma PreparedEntities(p: Params, o: Outside, known: map<ChanId, Peer>, excluded: seq<Outpoint>, c: Candidate)
    requires CandidateOk(p, c) && Prepare(p, o, excluded, c).Got?
    ensures RequestEntities(p, known, Prepare(p, o, excluded, c).value.0) == CandidateEntities(p, known, c)
  {
  }

  lemma ConsiderPartitions(
      p: Params, o: Outside, known: map<ChanId, Peer>, allowed: int, plan: Plan, c: Candidate, entities: set<Entity>)
    requires CandidateOk(p, c) && Partitioned(p, known, plan, entities)
    requires CandidateEntities(p, known, c) !! entities
    requires Consider(p, o, known, allowed, plan, c).Some?
    ensures Partitioned(p, known, Consider(p, o, known, allowed, plan, c).value,
                        entities + CandidateEntities(p, known, c))
  {
    match Prepare(p, o, plan.excluded, c)
    case Refused(reason) =>
      ReasonPartitions(p, known, plan, CandidateEntities(p, known, c), reason, entities);
    case Got((r, excluded)) =>
      PreparedEntities(p, o, known, plan.excluded, c);
      DecidePartitions(p, o.sweepFee, known, allowed, plan.(excluded := excluded), r, entities);
  }

  lemma LastApart(p: Params, known: map<ChanId, Peer>, cs: seq<Candidate>)
    requires cs != [] && Apart(p, known, cs)
    ensures CandidateEntities(p, known, cs[|cs| - 1]) !! Entities(p, known, cs[..|cs| - 1])
  {
    var init, c := cs[..|cs| - 1], cs[|cs| - 1];
    forall d <- init
      ensures CandidateEntities(p, known, d) !! CandidateEntities(p, known, c)
    {
      var i :| 0 <= i < |init| && init[i] == d;
      assert Footprint(p, known, cs[i]) !! Footprint(p, known, c);
    }
  }

  lemma {:induction false} AllocatePartitions(
      p: Params, o: Outside, known: map<ChanId, Peer>, allowed: int, start: Plan, cs: seq<Candidate>)
    requires start.accepted == [] && Apart(p, known, cs) && forall c <- cs :: CandidateOk(p, c)
    requires start.disqualified.Keys !! Entities(p, known, cs)
    requires Allocate(p, o, known, allowed, start, cs).Some?
    ensures Partitioned(p, known, Allocate(p, o, known, allowed, start, cs).value,
                        start.disqualified.Keys + Entities(p, known, cs))
  {
    if cs != [] {
      var init, c := cs[..|cs| - 1], cs[|cs| - 1];
      assert cs == init + [c];
      EntitiesGrow(p, known, init, c);
      AllocatePartitions(p, o, known, allowed, start, init);
      var before := Allocate(p, o, known, allowed, start, init).value;
      LastApart(p, known, cs);
      ConsiderPartitions(p, o, known, allowed, before, c, start.disqualified.Keys + Entities(p, known, init));
      assert start.disqualified.Keys + Entities(p, known, init) + CandidateEntities(p, known, c)
          == start.disqualified.Keys + Entities(p, known, cs);
    }
  }

  /** The gates of a pass are open: there is budget and room for another swap. */
  ghost predicate Open(p: Params, total: int, inFlight: int) {
    total < p.budget && inFlight < p.maxInFlight
  }

  lemma FillPartitions(
      p: Params, o: Outside, known: map<ChanId, Peer>, available: int, allowed: int, draft: Draft, items: seq<Item>)
    requires DraftOk(p, known, items, draft)
    requires Fill(p, o, known, available, allowed, draft).Some?
    ensures var s := Fill(p, o, known, available, allowed, draft).value;
            && s.disqualified.Keys + AcceptedEntities(p, known, s.accepted) == ItemEntities(items)
            && s.disqualified.Keys !! AcceptedEntities(p, known, s.accepted)
  {
    SortApart(p, known, draft.candidates);
    SortMembership(draft.candidates);
    assert Entities(p, known, Sort(draft.candidates)) == Entities(p, known, draft.candidates);
    AllocatePartitions(p, o, known, allowed, Plan(available, [], draft.disqualified, []), Sort(draft.candidates));
  }

  /** With unique channel ids and exclusive rules, whatever the outside answers and
      whatever order the peers are walked in: a pass either has no budget or room,
      and disqualifies every rule, or each entity it examines is in exactly one of
      accepted and disqualified, and nothing else is in either. */
  lemma PassPartitions(p: Params, o: Outside, l: Ledger, channels: seq<Channel>, order: seq<Peer>)
    requires ValidRules(p) && UniqueIds(channels) && ExclusiveRules(p, channels) && Enumerates(order, Peers(channels))
    requires SuggestSwaps(p, o, l, channels, order).Some?
    ensures var s := SuggestSwaps(p, o, l, channels, order).value;
            var accepted := AcceptedEntities(p, Known(channels), s.accepted);
            if Open(p, TotalFees(p, o.sweepFee, l), InFlightCount(l)) then
              && s.disqualified.Keys + accepted == ExaminedEntities(p, channels)
              && s.disqualified.Keys !! accepted
            else s.accepted == [] && s.disqualified.Keys == AllRules(p)
  {
    ItemsOk(p, channels, order);
    ExaminedOk(p, o, l, channels, order);
    ConcludePartitions(p, o, Known(channels), TotalFees(p, o.sweepFee, l), InFlightCount(l),
                       Examined(p, o, l, channels, order), Items(p, channels, order));
  }

  lemma ExaminedOk(p: Params, o: Outside, l: Ledger, channels: seq<Channel>, order: seq<Peer>)
    requires ValidRules(p) && UniqueIds(channels) && ExclusiveRules(p, channels) && Enumerates(order, Peers(channels))
    ensures var draft := Examined(p, o, l, channels, order);
            draft.Some? ==> DraftOk(p, Known(channels), Items(p, channels, order), draft.value)
  {
    ItemsOk(p, channels, order);
    ItemsValid(p, channels, order);
    if Examined(p, o, l, channels, order).Some? {
      CollectOk(p, o, TrafficOf(l, o.failureCutoff), Known(channels), Items(p, channels, order));
    }
  }

  lemma ConcludePartitions(
      p: Params, o: Outside, known: map<ChanId, Peer>, total: int, inFlight: int, draft: Option<Draft>,
      items: seq<Item>)
    requires draft.Some? ==> DraftOk(p, known, items, draft.value)
    requires Conclude(p, o, known, total, inFlight, draft).Some?
    ensures var s := Conclude(p, o, known, total, inFlight, draft).value;
            var accepted := AcceptedEntities(p, known, s.accepted);
            if Open(p, total, inFlight) then
              && s.disqualified.Keys + accepted == ItemEntities(items)
              && s.disqualified.Keys !! accepted
            else s.accepted == [] && s.disqualified.Keys == AllRules(p)
  {
    if Open(p, total, inFlight) {
      FillPartitions(p, o, known, p.budget - total, p.maxInFlight - inFlight, draft.value, items);
    }
  }
}
