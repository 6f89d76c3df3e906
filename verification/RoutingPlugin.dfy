/** How the routing plugin finds the fork before its target and ranks the peers
    there, and the plugin as the object that holds what it found
    (routing_plugin.go). */
module RoutingPlugin {
  import opened Calls
  import opened Options
  import opened MissionControl

  datatype Policy = Policy(baseFee: int, feeRate: int)

  datatype Edge = Edge(node1: Node, node2: Node, policy1: Option<Policy>, policy2: Option<Policy>, capacity: nat)

  /** The channels of the nodes of the public graph, and those of route hints. */
  datatype Network = Network(graph: map<Node, seq<Edge>>, hints: map<Node, seq<Edge>>)

  /** The channels of a node; none if it cannot be looked up. */
  function NodeInfo(net: Network, n: Node): (info: Option<seq<Edge>>)
    ensures info.None? <==> n !in net.graph && n !in net.hints
    ensures info.Some? ==>
              forall e :: e in info.value <==>
                            (n in net.graph && e in net.graph[n]) || (n in net.hints && e in net.hints[n])
  {
    if n in net.graph then Some(net.graph[n] + (if n in net.hints then net.hints[n] else []))
    else if n in net.hints then Some(net.hints[n])
    else None
  }

  /** The far end of a channel of the node. */
  function Other(e: Edge, n: Node): (q: Node)
    ensures q in {e.node1, e.node2}
    ensures n in {e.node1, e.node2} ==> {n, q} == {e.node1, e.node2}
  {
    if n != e.node1 then e.node1 else e.node2
  }

  // ----- The walk to the first fork -----

  /** The peers that were not visited yet, each once, in the order of the channels. */
  function NewPeers(edges: seq<Edge>, n: Node, visited: set<Node>): (peers: seq<Node>)
    ensures forall q :: q in peers ==> q !in visited && exists e <- edges :: Other(e, n) == q
    ensures forall e <- edges :: Other(e, n) in visited || Other(e, n) in peers
    ensures forall i, j :: 0 <= i < j < |peers| ==> peers[i] != peers[j]
  {
    if edges == [] then []
    else
      var before := NewPeers(edges[..|edges| - 1], n, visited);
      var q := Other(edges[|edges| - 1], n);
      if q in visited || q in before then before else before + [q]
  }

  datatype Found = Fork(target: Node, exit: Node) | NotApplicable | LookupFailed

  function NodesOf(edges: seq<Edge>): set<Node> {
    (set e | e in edges :: e.node1) + (set e | e in edges :: e.node2)
  }

  /** All that the walk can reach. */
  function Reachable(net: Network): set<Node> {
    (set n, e | n in net.graph && e in NodesOf(net.graph[n]) :: e)
    + (set n, e | n in net.hints && e in NodesOf(net.hints[n]) :: e)
  }

  lemma PeerReachable(net: Network, n: Node, q: Node)
    requires NodeInfo(net, n).Some? && exists e <- NodeInfo(net, n).value :: Other(e, n) == q
    ensures q in Reachable(net)
  {
    var e :| e in NodeInfo(net, n).value && Other(e, n) == q;
    if n in net.graph && e in net.graph[n] {
      assert q in NodesOf(net.graph[n]);
    } else {
      assert q in NodesOf(net.hints[n]);
    }
  }

  lemma Smaller(all: set<Node>, visited: set<Node>, q: Node)
    requires q in all && q !in visited
    ensures |all - (visited + {q})| < |all - visited|
  {
    assert all - visited == (all - (visited + {q})) + {q};
  }

  function Walk(net: Network, target: Node, exit: Node, visited: set<Node>): Found
    decreases |Reachable(net) - visited|
  {
    match NodeInfo(net, target)
    case None => LookupFailed
    case Some(edges) =>
      var peers := NewPeers(edges, target, visited);
      if |peers| == 1 then
        var next: Node := peers[0];
        assert next in peers;
        PeerReachable(net, target, next);
        Smaller(Reachable(net), visited, next);
        Walk(net, next, target, visited + {next})
      else if |peers| == 0 then NotApplicable
      else Fork(target, exit)
  }

  /** A way without forks: every node on it leads on to the next one only. */
  ghost predicate Forkless(net: Network, way: seq<Node>) {
    && (forall i, j :: 0 <= i < j < |way| ==> way[i] != way[j])
    && (forall i :: 0 <= i < |way| - 1 ==> LeadsOnlyTo(net, way, i))
  }

  ghost predicate LeadsOnlyTo(net: Network, way: seq<Node>, i: nat)
    requires i < |way| - 1
  {
    && NodeInfo(net, way[i]).Some?
    && forall e <- NodeInfo(net, way[i]).value :: Other(e, way[i]) in way[..i + 2]
  }

  /** Two peers of the node that are not on the way. */
  ghost predicate ForksAt(net: Network, way: seq<Node>, n: Node) {
    && NodeInfo(net, n).Some?
    && exists d, e :: d in NodeInfo(net, n).value && e in NodeInfo(net, n).value
                      && Other(d, n) != Other(e, n) && Other(d, n) !in way && Other(e, n) !in way
  }

  ghost predicate Ends(net: Network, way: seq<Node>, n: Node) {
    && NodeInfo(net, n).Some?
    && forall e <- NodeInfo(net, n).value :: Other(e, n) in way
  }

  ghost predicate FoundBy(net: Network, way: seq<Node>, found: Found) {
    && way != [] && Forkless(net, way)
    && var last := way[|way| - 1];
       match found
       case Fork(target, exit) =>
         target == last && exit == (if |way| == 1 then last else way[|way| - 2]) && ForksAt(net, way, last)
       case NotApplicable => Ends(net, way, last)
       case LookupFailed => NodeInfo(net, last).None?
  }

  lemma ForkHere(net: Network, way: seq<Node>, n: Node, edges: seq<Edge>, visited: set<Node>)
    requires NodeInfo(net, n) == Some(edges) && (forall q :: q in visited <==> q in way)
    requires |NewPeers(edges, n, visited)| > 1
    ensures ForksAt(net, way, n)
  {
    var peers := NewPeers(edges, n, visited);
    var p: Node, q: Node := peers[0], peers[1];
    assert p in peers && q in peers;
    var d :| d in edges && Other(d, n) == p;
    var e :| e in edges && Other(e, n) == q;
  }

  lemma LastLeads(net: Network, way: seq<Node>, next: Node, edges: seq<Edge>, visited: set<Node>)
    requires way != [] && (forall q :: q in visited <==> q in way)
    requires NodeInfo(net, way[|way| - 1]) == Some(edges) && NewPeers(edges, way[|way| - 1], visited) == [next]
    ensures next !in way && LeadsOnlyTo(net, way + [next], |way| - 1)
  {
    assert next in NewPeers(edges, way[|way| - 1], visited);
    assert (way + [next])[..|way| + 1] == way + [next];
  }

  lemma WayGrows(net: Network, way: seq<Node>, next: Node)
    requires way != [] && Forkless(net, way) && next !in way && LeadsOnlyTo(net, way + [next], |way| - 1)
    ensures Forkless(net, way + [next])
  {
    forall i | 0 <= i < |way| - 1
      ensures LeadsOnlyTo(net, way + [next], i)
    {
      StillLeads(net, way, next, i);
    }
  }

  lemma StillLeads(net: Network, way: seq<Node>, next: Node, i: nat)
    requires i < |way| - 1 && LeadsOnlyTo(net, way, i)
    ensures LeadsOnlyTo(net, way + [next], i)
  {
    assert (way + [next])[..i + 2] == way[..i + 2];
  }

  /** A single new peer is where the walk goes on, with less left to visit. */
  lemma StepOn(net: Network, n: Node, visited: set<Node>, edges: seq<Edge>, peers: seq<Node>)
    requires NodeInfo(net, n) == Some(edges) && peers == NewPeers(edges, n, visited) && |peers| == 1
    ensures peers == [peers[0]] && peers[0] !in visited
    ensures |Reachable(net) - (visited + {peers[0]})| < |Reachable(net) - visited|
  {
    var next: Node := peers[0];
    assert next in peers;
    PeerReachable(net, n, next);
    Smaller(Reachable(net), visited, next);
  }

  lemma WalkStep(net: Network, target: Node, exit: Node, visited: set<Node>, edges: seq<Edge>, next: Node)
    requires NodeInfo(net, target) == Some(edges) && NewPeers(edges, target, visited) == [next]
    ensures Walk(net, target, exit, visited) == Walk(net, next, target, visited + {next})
  {
  }

  /** The walk stands at the end of the way, whose nodes it has visited. */
  ghost predicate OnWay(net: Network, way: seq<Node>, target: Node, exit: Node, visited: set<Node>) {
    && way != [] && way[|way| - 1] == target && Forkless(net, way) && (forall q :: q in visited <==> q in way)
    && exit == (if |way| == 1 then target else way[|way| - 2])
  }

  lemma OnWayGrows(
      net: Network, way: seq<Node>, target: Node, exit: Node, visited: set<Node>, edges: seq<Edge>, next: Node)
    requires OnWay(net, way, target, exit, visited)
    requires NodeInfo(net, target) == Some(edges) && NewPeers(edges, target, visited) == [next]
    ensures OnWay(net, way + [next], next, target, visited + {next})
  {
    LastLeads(net, way, next, edges, visited);
    WayGrows(net, way, next);
  }

  lemma WalkEnds(net: Network, target: Node, exit: Node, visited: set<Node>, way: seq<Node>)
    requires OnWay(net, way, target, exit, visited)
    requires NodeInfo(net, target).Some? ==> |NewPeers(NodeInfo(net, target).value, target, visited)| != 1
    ensures FoundBy(net, way, Walk(net, target, exit, visited))
  {
    if NodeInfo(net, target).Some? {
      var edges := NodeInfo(net, target).value;
      var peers := NewPeers(edges, target, visited);
      if |peers| > 1 {
        ForkHere(net, way, target, edges, visited);
      } else {
        assert Ends(net, way, target);
      }
    }
  }

  /** The walk ends at the first fork, or at a node that leads nowhere new, having
      gone a way without forks on which it was at no node twice. */
  lemma {:induction false} WalkFinds(net: Network, target: Node, exit: Node, visited: set<Node>, way: seq<Node>)
    returns (whole: seq<Node>)
    requires OnWay(net, way, target, exit, visited)
    ensures way <= whole && FoundBy(net, whole, Walk(net, target, exit, visited))
    decreases |Reachable(net) - visited|
  {
    if NodeInfo(net, target).Some? && |NewPeers(NodeInfo(net, target).value, target, visited)| == 1 {
      var edges := NodeInfo(net, target).value;
      var peers := NewPeers(edges, target, visited);
      var next: Node := peers[0];
      StepOn(net, target, visited, edges, peers);
      OnWayGrows(net, way, target, exit, visited, edges, next);
      WalkStep(net, target, exit, visited, edges, next);
      whole := WalkFinds(net, next, target, visited + {next}, way + [next]);
    } else {
      whole := way;
      WalkEnds(net, target, exit, visited, way);
    }
  }

  method FindFork(net: Network, start: Node) returns (found: Found)
    ensures found == Walk(net, start, start, {start})
  {
    var target, exit, visited := start, start, {start};
    while true
      invariant Walk(net, target, exit, visited) == Walk(net, start, start, {start})
      decreases |Reachable(net) - visited|
    {
      var info := NodeInfo(net, target);
      if info.None? {
        return LookupFailed;
      }
      var peers := CollectPeers(info.value, target, visited);
      if |peers| == 0 {
        return NotApplicable;
      }
      if |peers| > 1 {
        return Fork(target, exit);
      }
      var next: Node := peers[0];
      assert next in peers;
      PeerReachable(net, target, next);
      Smaller(Reachable(net), visited, next);
      exit, target, visited := target, next, visited + {next};
    }
  }

  method CollectPeers(edges: seq<Edge>, n: Node, visited: set<Node>) returns (peers: seq<Node>)
    ensures peers == NewPeers(edges, n, visited)
  {
    peers := [];
    for i := 0 to |edges|
      invariant peers == NewPeers(edges[..i], n, visited)
    {
      assert edges[..i + 1][..i] == edges[..i];
      var q := Other(edges[i], n);
      if q !in visited && q !in peers {
        peers := peers + [q];
      }
    }
    assert edges[..|edges|] == edges;
  }

  // ----- Peers ranked by fee -----

  /** What a node charges over a channel to the target. */
  function FeeOver(e: Edge, n: Node, target: Node, amountMsat: int): Option<int> {
    var policy :=
      if e.node1 == n && e.node2 == target then e.policy1
      else if e.node1 == target && e.node2 == n then e.policy2
      else None;
    match policy
    case None => None
    case Some(p) => Some(p.baseFee + p.feeRate * amountMsat)
  }

  /** The dearest of its channels to the target, or zero. */
  function MaxFee(edges: seq<Edge>, n: Node, target: Node, amountMsat: int): (fee: nat)
    ensures forall e <- edges :: var f := FeeOver(e, n, target, amountMsat); f.Some? ==> f.value <= fee
    ensures fee > 0 ==> exists e <- edges :: FeeOver(e, n, target, amountMsat) == Some(fee)
  {
    if edges == [] then 0
    else
      var before := MaxFee(edges[..|edges| - 1], n, target, amountMsat);
      var f := FeeOver(edges[|edges| - 1], n, target, amountMsat);
      if f.Some? && f.value > before then f.value else before
  }

  function Capacity(edges: seq<Edge>, n: Node, target: Node, amountMsat: int): nat {
    if edges == [] then 0
    else
      Capacity(edges[..|edges| - 1], n, target, amountMsat)
      + (if FeeOver(edges[|edges| - 1], n, target, amountMsat).Some? then edges[|edges| - 1].capacity else 0)
  }

  function Rated(nodes: map<Node, seq<Edge>>, n: Node, target: Node, amountMsat: int): NodeFee
    requires n in nodes
  {
    NodeFee(n, Capacity(nodes[n], n, target, amountMsat), MaxFee(nodes[n], n, target, amountMsat))
  }

  /** Nodes that charge nothing are left out. */
  function RatedAll(nodes: map<Node, seq<Edge>>, order: seq<Node>, target: Node, amountMsat: int): seq<NodeFee>
    requires forall n <- order :: n in nodes
  {
    if order == [] then []
    else
      var n := order[|order| - 1];
      assert n in order;
      RatedAll(nodes, order[..|order| - 1], target, amountMsat)
      + (if MaxFee(nodes[n], n, target, amountMsat) > 0 then [Rated(nodes, n, target, amountMsat)] else [])
  }

  function InsertByFee(x: NodeFee, s: seq<NodeFee>): seq<NodeFee> {
    if s == [] || s[|s| - 1].fee <= x.fee then s + [x] else InsertByFee(x, s[..|s| - 1]) + [s[|s| - 1]]
  }

  function SortByFee(s: seq<NodeFee>): seq<NodeFee> {
    if s == [] then [] else InsertByFee(s[|s| - 1], SortByFee(s[..|s| - 1]))
  }

  function NodesByMaxFee(nodes: map<Node, seq<Edge>>, order: seq<Node>, target: Node, amountMsat: int): seq<NodeFee>
    requires forall n <- order :: n in nodes
  {
    SortByFee(RatedAll(nodes, order, target, amountMsat))
  }

  lemma {:induction false} InsertMembers(x: NodeFee, s: seq<NodeFee>)
    ensures forall y :: y in InsertByFee(x, s) <==> y == x || y in s
  {
    if s != [] && s[|s| - 1].fee > x.fee {
      InsertMembers(x, s[..|s| - 1]);
      assert s == s[..|s| - 1] + [s[|s| - 1]];
    }
  }

  lemma {:induction false} InsertKeeps(x: NodeFee, s: seq<NodeFee>)
    requires Ascending(s) && DistinctNodes(s) && forall y <- s :: y.node != x.node
    ensures Ascending(InsertByFee(x, s)) && DistinctNodes(InsertByFee(x, s))
  {
    if s != [] && s[|s| - 1].fee > x.fee {
      var init := s[..|s| - 1];
      assert s[|s| - 1] in s;
      InsertKeeps(x, init);
      InsertMembers(x, init);
      var r := InsertByFee(x, init);
      assert forall i :: 0 <= i < |r| ==> r[i] in r;
    }
  }

  lemma {:induction false} SortKeeps(s: seq<NodeFee>)
    requires DistinctNodes(s)
    ensures Ascending(SortByFee(s)) && DistinctNodes(SortByFee(s))
    ensures forall y :: y in SortByFee(s) <==> y in s
  {
    if s != [] {
      var init, last := s[..|s| - 1], s[|s| - 1];
      SortKeeps(init);
      InsertKeeps(last, SortByFee(init));
      InsertMembers(last, SortByFee(init));
      assert s == init + [last];
    }
  }

  lemma {:induction false} RatedExactly(nodes: map<Node, seq<Edge>>, order: seq<Node>, target: Node, amountMsat: int)
    requires forall n <- order :: n in nodes
    requires forall i, j :: 0 <= i < j < |order| ==> order[i] != order[j]
    ensures var r := RatedAll(nodes, order, target, amountMsat);
            && DistinctNodes(r)
            && forall y :: y in r <==> y.node in order && y.fee > 0 && y == Rated(nodes, y.node, target, amountMsat)
  {
    if order != [] {
      var init, last := order[..|order| - 1], order[|order| - 1];
      RatedExactly(nodes, init, target, amountMsat);
      assert order == init + [last] && last in order;
      var r := RatedAll(nodes, init, target, amountMsat);
      assert forall i :: 0 <= i < |r| ==> r[i] in r;
    }
  }

  /** The ranking holds exactly the nodes that charge something for some channel to
      the target, each once, with its highest fee and its capacity, the cheapest
      first. */
  lemma RankedExactly(nodes: map<Node, seq<Edge>>, order: seq<Node>, target: Node, amountMsat: int)
    requires forall n <- order :: n in nodes
    requires forall i, j :: 0 <= i < j < |order| ==> order[i] != order[j]
    ensures var r := NodesByMaxFee(nodes, order, target, amountMsat);
            && Ascending(r) && DistinctNodes(r)
            && forall y :: y in r <==> y.node in order && y.fee > 0 && y == Rated(nodes, y.node, target, amountMsat)
  {
    RatedExactly(nodes, order, target, amountMsat);
    SortKeeps(RatedAll(nodes, order, target, amountMsat));
  }

  /** The channel joins the node to the target, and the node forwards by the policy. */
  ghost predicate Forwards(e: Edge, n: Node, target: Node, p: Policy) {
    || (e.node1 == n && e.node2 == target && e.policy1 == Some(p))
    || (e.node1 == target && e.node2 == n && n != target && e.policy2 == Some(p))
  }

  lemma FeeOverExactly(e: Edge, n: Node, target: Node, amountMsat: int, fee: int)
    ensures FeeOver(e, n, target, amountMsat) == Some(fee) <==>
              exists p :: Forwards(e, n, target, p) && fee == p.baseFee + p.feeRate * amountMsat
  {
    if e.policy1.Some? && Forwards(e, n, target, e.policy1.value) {
      assert FeeOver(e, n, target, amountMsat).Some?;
    } else if e.policy2.Some? && Forwards(e, n, target, e.policy2.value) {
      assert FeeOver(e, n, target, amountMsat).Some?;
    }
  }

  /** What the channels over which the node forwards to the target can hold. */
  ghost function ForwardingCapacity(edges: seq<Edge>, n: Node, target: Node): nat {
    if edges == [] then 0
    else
      var e := edges[0];
      (if exists p :: Forwards(e, n, target, p) then e.capacity else 0) + ForwardingCapacity(edges[1..], n, target)
  }

  lemma {:induction false} ForwardingJoins(edges: seq<Edge>, e: Edge, n: Node, target: Node)
    ensures ForwardingCapacity(edges + [e], n, target) ==
            ForwardingCapacity(edges, n, target) + (if exists p :: Forwards(e, n, target, p) then e.capacity else 0)
  {
    if edges == [] {
      assert [] + [e] == [e] && [e][1..] == [];
    } else {
      assert (edges + [e])[1..] == edges[1..] + [e];
      ForwardingJoins(edges[1..], e, n, target);
    }
  }

  lemma ForwardsSome(e: Edge, n: Node, target: Node, amountMsat: int)
    ensures FeeOver(e, n, target, amountMsat).Some? <==> exists p :: Forwards(e, n, target, p)
  {
    if FeeOver(e, n, target, amountMsat).Some? {
      FeeOverExactly(e, n, target, amountMsat, FeeOver(e, n, target, amountMsat).value);
    }
    if p :| Forwards(e, n, target, p) {
      FeeOverExactly(e, n, target, amountMsat, p.baseFee + p.feeRate * amountMsat);
    }
  }

  lemma {:induction false} CapacityExactly(edges: seq<Edge>, n: Node, target: Node, amountMsat: int)
    ensures Capacity(edges, n, target, amountMsat) == ForwardingCapacity(edges, n, target)
  {
    if edges != [] {
      var init, e := edges[..|edges| - 1], edges[|edges| - 1];
      CapacityExactly(init, n, target, amountMsat);
      assert edges == init + [e];
      ForwardingJoins(init, e, n, target);
      ForwardsSome(e, n, target, amountMsat);
    }
  }

  /** A ranked peer's fee is the highest that its policies ask for the amount over a
      channel to the target, and its capacity is that of all these channels. */
  lemma RatedByPolicies(nodes: map<Node, seq<Edge>>, order: seq<Node>, target: Node, amountMsat: int, y: NodeFee)
    requires forall n <- order :: n in nodes
    requires forall i, j :: 0 <= i < j < |order| ==> order[i] != order[j]
    requires y in NodesByMaxFee(nodes, order, target, amountMsat)
    ensures y.node in nodes && y.capacity == ForwardingCapacity(nodes[y.node], y.node, target)
    ensures forall e <- nodes[y.node], p ::
              Forwards(e, y.node, target, p) ==> p.baseFee + p.feeRate * amountMsat <= y.fee
    ensures exists e <- nodes[y.node], p ::
              Forwards(e, y.node, target, p) && y.fee == p.baseFee + p.feeRate * amountMsat
  {
    RankedExactly(nodes, order, target, amountMsat);
    var edges := nodes[y.node];
    CapacityExactly(edges, y.node, target, amountMsat);
    forall e, p | e in edges && Forwards(e, y.node, target, p)
      ensures p.baseFee + p.feeRate * amountMsat <= y.fee
    {
      FeeOverExactly(e, y.node, target, amountMsat, p.baseFee + p.feeRate * amountMsat);
    }
    var e :| e in edges && FeeOver(e, y.node, target, amountMsat) == Some(y.fee);
    FeeOverExactly(e, y.node, target, amountMsat, y.fee);
  }

  // ----- The plugin -----

  predicate Skipped(e: Edge, target: Node, exit: Node) {
    exit != target && (e.node1 == exit || e.node2 == exit)
  }

  /** The peers at the fork, apart from the exit, with their public channels. */
  function Gather(net: Network, edges: seq<Edge>, target: Node, exit: Node): Option<map<Node, seq<Edge>>> {
    if edges == [] then Some(map[])
    else
      match Gather(net, edges[..|edges| - 1], target, exit)
      case None => None
      case Some(nodes) =>
        var e := edges[|edges| - 1];
        if Skipped(e, target, exit) then Some(nodes)
        else
          var q := Other(e, target);
          if q in net.graph then Some(nodes[q := net.graph[q]]) else None
  }

  /** It fails exactly if one of these peers is not public, and holds them all. */
  lemma {:induction false} GatherExactly(net: Network, edges: seq<Edge>, target: Node, exit: Node)
    ensures Gather(net, edges, target, exit).Some? <==>
              forall e <- edges :: !Skipped(e, target, exit) ==> Other(e, target) in net.graph
    ensures Gather(net, edges, target, exit).Some? ==>
              var nodes := Gather(net, edges, target, exit).value;
              && (forall n <- nodes :: n in net.graph && nodes[n] == net.graph[n])
              && (forall n :: n in nodes <==> exists e <- edges :: !Skipped(e, target, exit) && Other(e, target) == n)
  {
    if edges != [] {
      var init, last := edges[..|edges| - 1], edges[|edges| - 1];
      GatherExactly(net, init, target, exit);
      assert edges == init + [last];
    }
  }

  method GatherPeers(net: Network, edges: seq<Edge>, target: Node, exit: Node)
    returns (nodes: Option<map<Node, seq<Edge>>>)
    ensures nodes == Gather(net, edges, target, exit)
  {
    var found := map[];
    for i := 0 to |edges|
      invariant Gather(net, edges[..i], target, exit) == Some(found)
    {
      assert edges[..i + 1] == edges[..i] + [edges[i]] && edges[..i + 1][..i] == edges[..i];
      if Skipped(edges[i], target, exit) {
        continue;
      }
      var q := Other(edges[i], target);
      if q !in net.graph {
        GatherExactly(net, edges, target, exit);
        assert edges[i] in edges;
        return None;
      }
      found := found[q := net.graph[q]];
    }
    assert edges[..|edges|] == edges;
    return Some(found);
  }

  /** Every channel of a node has that node at one of its ends. */
  ghost predicate OwnChannels(net: Network) {
    forall n :: NodeInfo(net, n).Some? ==>
      forall e <- NodeInfo(net, n).value :: e.node1 == n || e.node2 == n
  }

  /** At a fork there are at least two peers to choose from, and the node by which
      the payment leaves is not one of them. */
  lemma ForkHasChoice(net: Network, way: seq<Node>, target: Node, exit: Node)
    requires OwnChannels(net) && FoundBy(net, way, Fork(target, exit))
    ensures var nodes := Gather(net, NodeInfo(net, target).value, target, exit);
            nodes.Some? ==>
              && (exists p, q :: p in nodes.value && q in nodes.value && p != q)
              && (exit != target ==> exit !in nodes.value)
  {
    var edges := NodeInfo(net, target).value;
    GatherExactly(net, edges, target, exit);
    var d, e :| d in edges && e in edges && Other(d, target) != Other(e, target)
                && Other(d, target) !in way && Other(e, target) !in way;
    assert target in way && exit in way;
    assert !Skipped(d, target, exit) && !Skipped(e, target, exit);
    if Gather(net, edges, target, exit).Some? {
      var nodes := Gather(net, edges, target, exit).value;
      assert Other(d, target) in nodes && Other(e, target) in nodes;
    }
  }

  class LowToHighPlugin {
    var target: Node
    var nodes: seq<NodeFee>
    var saved: Option<map<Node, Entry>>
    var changed: bool

    ghost function View(): Plugin
      reads this
    {
      Plugin(target, nodes, saved, changed)
    }

    /** Ranks the peers at the fork, in whatever order the map is walked, and saves
        their entries. */
    constructor (target: Node, peers: map<Node, seq<Edge>>, order: seq<Node>, amount: nat, mc: Table)
      requires forall n :: n in order <==> n in peers
      requires forall i, j :: 0 <= i < j < |order| ==> order[i] != order[j]
      ensures this.target == target && nodes == NodesByMaxFee(peers, order, target, 1000 * amount)
      ensures Initialized(View(), mc, peers.Keys) && Ascending(nodes)
    {
      RankedExactly(peers, order, target, 1000 * amount);
      this.target := target;
      this.nodes := NodesByMaxFee(peers, order, target, 1000 * amount);
      this.saved := Some(Save(mc, peers.Keys, target));
      this.changed := false;
    }

    method Before(mc: Table, attempt: int, maxAttempts: int, now: int, reply: Reply)
      returns (mc': Table, outcome: Outcome)
      modifies this`changed
      ensures (View(), mc', outcome) == BeforePayment(old(View()), mc, attempt, maxAttempts, now, reply)
    {
      if attempt < 2 {
        return mc, Completed;
      }
      if nodes == [] || maxAttempts == 0 {
        return mc, Crashed;
      }
      var limit := Limit(nodes, attempt, maxAttempts);
      var allowed := 0;
      var entries := [];
      for i := 0 to |nodes|
        invariant |entries| == i && forall j :: 0 <= j < i ==> entries[j] == Attempted(nodes[j], limit, now)
        invariant allowed > 0 <==> exists j :: 0 <= j < i && nodes[j].fee >= limit
      {
        if nodes[i].fee < limit {
          entries := entries + [Entry(Some(now), 1, None, 0)];
        } else {
          entries := entries + [Entry(None, 0, Some(now), 1000 * nodes[i].capacity)];
          allowed := allowed + 1;
        }
      }
      assert allowed > 0 <==> Allowed(nodes, limit);
      if allowed == 0 {
        return mc, NoMoreRetries;
      }
      if reply.Refused? {
        return mc, ImportFailed;
      }
      assert entries == AttemptEntries(nodes, limit, now);
      mc' := Import(mc, target, nodes, entries);
      if reply.Lost? {
        return mc', ImportFailed;
      }
      changed := true;
      return mc', Completed;
    }

    method Done(mc: Table, now: int, reply: Reply) returns (mc': Table, outcome: Outcome)
      modifies this`saved
      ensures (View(), mc', outcome) == Finish(old(View()), mc, now, reply)
    {
      if saved.None? {
        return mc, Completed;
      }
      var state := saved.value;
      saved := None;
      if !changed {
        return mc, Completed;
      }
      var entries := [];
      for i := 0 to |nodes|
        invariant |entries| == i && forall j :: 0 <= j < i ==> entries[j] == Restored(nodes[j], state, now)
      {
        if nodes[i].node in state {
          entries := entries + [Bumped(state[nodes[i].node], now)];
        } else {
          entries := entries + [ByCapacity(nodes[i], now)];
        }
      }
      if reply.Refused? {
        return mc, ImportFailed;
      }
      assert entries == RestoreEntries(nodes, state, now);
      return Import(mc, target, nodes, entries), if reply.Lost? then ImportFailed else Completed;
    }
  }

  /** From the second attempt on, the plugin fails on an empty ranking: exactly if no
      peer at the fork charges anything to the target. */
  lemma CrashedExactly(
      p: Plugin, peers: map<Node, seq<Edge>>, order: seq<Node>, amountMsat: int,
      mc: Table, attempt: int, maxAttempts: int, now: int, reply: Reply)
    requires forall n :: n in order <==> n in peers
    requires forall i, j :: 0 <= i < j < |order| ==> order[i] != order[j]
    requires p.nodes == NodesByMaxFee(peers, order, p.target, amountMsat) && attempt >= 2 && maxAttempts > 0
    ensures BeforePayment(p, mc, attempt, maxAttempts, now, reply).2.Crashed? <==>
              forall n <- peers, e <- peers[n] ::
                var f := FeeOver(e, n, p.target, amountMsat); f.Some? ==> f.value <= 0
  {
    RankedExactly(peers, order, p.target, amountMsat);
    if p.nodes == [] {
      forall n <- peers
        ensures MaxFee(peers[n], n, p.target, amountMsat) == 0
      {
        assert Rated(peers, n, p.target, amountMsat) !in p.nodes;
      }
    } else {
      var y := p.nodes[0];
      assert y in p.nodes;
      assert MaxFee(peers[y.node], y.node, p.target, amountMsat) > 0;
    }
  }

  /** One such network: two peers that forward to the target for free. */
  lemma FreePeersCrash(p: Plugin, mc: Table, maxAttempts: int, now: int, reply: Reply, amountMsat: int)
    requires var free := Some(Policy(0, 0));
             var peers := map[1 := [Edge(1, 3, free, free, 7)], 2 := [Edge(2, 3, free, free, 7)]];
             p.target == 3 && p.nodes == NodesByMaxFee(peers, [1, 2], 3, amountMsat) && maxAttempts > 0
    ensures BeforePayment(p, mc, 2, maxAttempts, now, reply).2 == Crashed
  {
    var free := Some(Policy(0, 0));
    var peers := map[1 := [Edge(1, 3, free, free, 7)], 2 := [Edge(2, 3, free, free, 7)]];
    CrashedExactly(p, peers, [1, 2], amountMsat, mc, 2, maxAttempts, now, reply);
  }
}
