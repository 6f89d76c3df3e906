/** The low-to-high routing plugin (routing_plugin.go): where it starts to
    discourage peers, which ones at which attempt, and how it puts back the
    mission control entries that it changed. */
module MissionControl {
  import opened Arithmetic
  import opened Calls
  import opened Options

  type Node = int

  /** The zero time is none. */
  datatype Entry = Entry(failTime: Option<int>, failAmt: int, successTime: Option<int>, successAmt: int)

  datatype Pair = Pair(from: Node, to: Node)

  type Table = map<Pair, Entry>

  datatype NodeFee = NodeFee(node: Node, capacity: nat, fee: int)

  datatype Plugin = Plugin(target: Node, nodes: seq<NodeFee>, saved: Option<map<Node, Entry>>, changed: bool)

  /** Crashed is an index out of range, or a division by zero. */
  datatype Outcome = Completed | NoMoreRetries | ImportFailed | Crashed

  ghost predicate Ascending(nodes: seq<NodeFee>) {
    forall i, j :: 0 <= i < j < |nodes| ==> nodes[i].fee <= nodes[j].fee
  }

  ghost predicate DistinctNodes(nodes: seq<NodeFee>) {
    forall i, j :: 0 <= i < j < |nodes| ==> nodes[i].node != nodes[j].node
  }

  // ----- Which peers are discouraged -----

  /** Division toward zero, as in the source. */
  function Quotient(x: int, d: int): int
    requires d != 0
  {
    if x < 0 then -(-x / d) else x / d
  }

  function Limit(nodes: seq<NodeFee>, attempt: int, maxAttempts: int): int
    requires nodes != [] && maxAttempts != 0
  {
    var minFee, maxFee := nodes[0].fee, nodes[|nodes| - 1].fee;
    minFee + Quotient(maxFee - minFee, maxAttempts) * attempt
  }

  function Attempted(n: NodeFee, limit: int, now: int): Entry {
    if n.fee < limit then Entry(Some(now), 1, None, 0) else Entry(None, 0, Some(now), 1000 * n.capacity)
  }

  /** A forced import overwrites the entries of the pairs it names. */
  function Import(mc: Table, target: Node, nodes: seq<NodeFee>, entries: seq<Entry>): Table
    requires |entries| == |nodes|
    decreases |nodes|
  {
    if nodes == [] then mc
    else
      var n := |nodes| - 1;
      Import(mc, target, nodes[..n], entries[..n])[Pair(nodes[n].node, target) := entries[n]]
  }

  function AttemptEntries(nodes: seq<NodeFee>, limit: int, now: int): (entries: seq<Entry>)
    ensures |entries| == |nodes| && forall i :: 0 <= i < |nodes| ==> entries[i] == Attempted(nodes[i], limit, now)
  {
    seq(|nodes|, i requires 0 <= i < |nodes| => Attempted(nodes[i], limit, now))
  }

  predicate Allowed(nodes: seq<NodeFee>, limit: int) {
    exists n <- nodes :: n.fee >= limit
  }

  /** The flag that something was changed is set only if the import is acknowledged. */
  function BeforePayment(
      p: Plugin, mc: Table, attempt: int, maxAttempts: int, now: int, reply: Reply): (Plugin, Table, Outcome)
  {
    if attempt < 2 then (p, mc, Completed)
    else if p.nodes == [] || maxAttempts == 0 then (p, mc, Crashed)
    else
      var limit := Limit(p.nodes, attempt, maxAttempts);
      if !Allowed(p.nodes, limit) then (p, mc, NoMoreRetries)
      else if reply.Refused? then (p, mc, ImportFailed)
      else
        var mc1 := Import(mc, p.target, p.nodes, AttemptEntries(p.nodes, limit, now));
        if reply.Lost? then (p, mc1, ImportFailed) else (p.(changed := true), mc1, Completed)
  }

  /** The limit never falls from one attempt to the next, so that once a peer is
      discouraged it stays so. */
  lemma DiscouragedGrows(nodes: seq<NodeFee>, a: int, b: int, maxAttempts: int)
    requires nodes != [] && Ascending(nodes) && maxAttempts > 0 && a <= b
    ensures Limit(nodes, a, maxAttempts) <= Limit(nodes, b, maxAttempts)
    ensures forall n <- nodes :: n.fee < Limit(nodes, a, maxAttempts) ==> n.fee < Limit(nodes, b, maxAttempts)
  {
    MulMonotonic((nodes[|nodes| - 1].fee - nodes[0].fee) / maxAttempts, a, b);
  }

  /** Some peer stays allowed exactly as long as the dearest one does, which is as
      long as the attempts have not used up the whole range of fees. */
  lemma AllowedExactly(nodes: seq<NodeFee>, attempt: int, maxAttempts: int)
    requires nodes != [] && Ascending(nodes) && maxAttempts > 0
    ensures var range := nodes[|nodes| - 1].fee - nodes[0].fee;
            && (Allowed(nodes, Limit(nodes, attempt, maxAttempts)) <==>
                  nodes[|nodes| - 1].fee >= Limit(nodes, attempt, maxAttempts))
            && (Allowed(nodes, Limit(nodes, attempt, maxAttempts)) <==> range / maxAttempts * attempt <= range)
  {
  }

  /** The dearest peer is never discouraged within the allowed number of attempts,
      so there is always one left to try. */
  lemma DearestStays(nodes: seq<NodeFee>, attempt: int, maxAttempts: int)
    requires nodes != [] && Ascending(nodes) && 0 < maxAttempts && attempt <= maxAttempts
    ensures nodes[|nodes| - 1].fee >= Limit(nodes, attempt, maxAttempts)
    ensures Allowed(nodes, Limit(nodes, attempt, maxAttempts))
  {
  }

  /** The caller makes one attempt more than it announces; that one finds nobody left
      if and only if a step is longer than what the steps leave of the range. */
  lemma OneAttemptTooMany(nodes: seq<NodeFee>, maxAttempts: int)
    requires nodes != [] && Ascending(nodes) && 0 < maxAttempts
    ensures var range := nodes[|nodes| - 1].fee - nodes[0].fee;
            !Allowed(nodes, Limit(nodes, maxAttempts + 1, maxAttempts)) <==> range / maxAttempts > range % maxAttempts
  {
  }

  /** With fees of 10 and 20 and five attempts announced, the sixth is that one. */
  lemma SixthAttemptFindsNobody(p: Plugin, mc: Table, now: int, reply: Reply)
    requires |p.nodes| == 2 && p.nodes[0].fee == 10 && p.nodes[1].fee == 20
    ensures BeforePayment(p, mc, 5, 5, now, Ack).2 == Completed
    ensures BeforePayment(p, mc, 6, 5, now, reply) == (p, mc, NoMoreRetries)
  {
    DearestStays(p.nodes, 5, 5);
    OneAttemptTooMany(p.nodes, 5);
  }

  // ----- Save and restore -----

  function Save(mc: Table, nodes: set<Node>, target: Node): map<Node, Entry> {
    map n | n in nodes && Pair(n, target) in mc :: mc[Pair(n, target)]
  }

  /** The saved amounts, with the times that were set moved to now. */
  function Bumped(e: Entry, now: int): Entry {
    e.(failTime := if e.failTime.Some? then Some(now) else None,
       successTime := if e.successTime.Some? then Some(now) else None)
  }

  /** Without an entry before, the capacity succeeds and anything above it fails. */
  function ByCapacity(n: NodeFee, now: int): Entry {
    Entry(Some(now), 1000 * n.capacity + 1, Some(now), 1000 * n.capacity)
  }

  function Restored(n: NodeFee, saved: map<Node, Entry>, now: int): Entry {
    if n.node in saved then Bumped(saved[n.node], now) else ByCapacity(n, now)
  }

  function RestoreEntries(nodes: seq<NodeFee>, saved: map<Node, Entry>, now: int): (entries: seq<Entry>)
    ensures |entries| == |nodes| && forall i :: 0 <= i < |nodes| ==> entries[i] == Restored(nodes[i], saved, now)
  {
    seq(|nodes|, i requires 0 <= i < |nodes| => Restored(nodes[i], saved, now))
  }

  function Finish(p: Plugin, mc: Table, now: int, reply: Reply): (Plugin, Table, Outcome) {
    if p.saved.None? then (p, mc, Completed)
    else
      var p1 := p.(saved := None);
      if !p.changed then (p1, mc, Completed)
      else if reply.Refused? then (p1, mc, ImportFailed)
      else
        var mc1 := Import(mc, p.target, p.nodes, RestoreEntries(p.nodes, p.saved.value, now));
        (p1, mc1, if reply.Lost? then ImportFailed else Completed)
  }

  function Look(mc: Table, pair: Pair): Option<Entry> {
    if pair in mc then Some(mc[pair]) else None
  }

  predicate Selected(p: Plugin, pair: Pair) {
    pair.to == p.target && exists n <- p.nodes :: n.node == pair.from
  }

  lemma {:induction false} ImportElsewhere(
      mc: Table, target: Node, nodes: seq<NodeFee>, entries: seq<Entry>, pair: Pair)
    requires |entries| == |nodes| && (pair.to == target ==> forall n <- nodes :: n.node != pair.from)
    ensures Look(Import(mc, target, nodes, entries), pair) == Look(mc, pair)
    decreases |nodes|
  {
    if nodes != [] {
      var n := |nodes| - 1;
      assert nodes[n] in nodes;
      ImportElsewhere(mc, target, nodes[..n], entries[..n], pair);
    }
  }

  lemma {:induction false} ImportThere(mc: Table, target: Node, nodes: seq<NodeFee>, entries: seq<Entry>, i: nat)
    requires |entries| == |nodes| && DistinctNodes(nodes) && i < |nodes|
    ensures Look(Import(mc, target, nodes, entries), Pair(nodes[i].node, target)) == Some(entries[i])
    decreases |nodes|
  {
    var n := |nodes| - 1;
    if i < n {
      ImportThere(mc, target, nodes[..n], entries[..n], i);
    }
  }

  // ----- The bracket around a payment -----

  /** Anything may change the table between the calls of the plugin. */
  datatype Step =
    | Others(table: Table)
    | Before(attempt: int, maxAttempts: int, now: int, reply: Reply)

  function Take(p: Plugin, mc: Table, s: Step): (Plugin, Table) {
    match s
    case Others(table) => (p, table)
    case Before(attempt, maxAttempts, now, reply) =>
      var (p1, mc1, _) := BeforePayment(p, mc, attempt, maxAttempts, now, reply);
      (p1, mc1)
  }

  function Use(p: Plugin, mc: Table, steps: seq<Step>): (Plugin, Table)
    decreases |steps|
  {
    if steps == [] then (p, mc)
    else
      var (p1, mc1) := Take(p, mc, steps[0]);
      Use(p1, mc1, steps[1..])
  }

  /** Nobody else changes the entry of the pair. */
  ghost predicate Quiet(p: Plugin, mc: Table, steps: seq<Step>, pair: Pair)
    decreases |steps|
  {
    steps == [] ||
    (var (p1, mc1) := Take(p, mc, steps[0]);
     && (steps[0].Others? ==> Look(mc1, pair) == Look(mc, pair))
     && Quiet(p1, mc1, steps[1..], pair))
  }

  /** The call imports entries that discourage peers, whatever it is told of it. */
  predicate Imports(nodes: seq<NodeFee>, s: Step) {
    && s.Before? && s.attempt >= 2 && nodes != [] && s.maxAttempts != 0
    && Allowed(nodes, Limit(nodes, s.attempt, s.maxAttempts)) && !s.reply.Refused?
  }

  lemma TakeKeeps(p: Plugin, mc: Table, s: Step, pair: Pair)
    ensures var (p1, mc1) := Take(p, mc, s);
            && p1 == p.(changed := p.changed || (Imports(p.nodes, s) && s.reply.Ack?))
            && (s.Before? && (!Imports(p.nodes, s) || !Selected(p, pair)) ==> Look(mc1, pair) == Look(mc, pair))
  {
    if !Selected(p, pair) && Imports(p.nodes, s) {
      var limit := Limit(p.nodes, s.attempt, s.maxAttempts);
      ImportElsewhere(mc, p.target, p.nodes, AttemptEntries(p.nodes, limit, s.now), pair);
    }
  }

  lemma TakeImports(p: Plugin, mc: Table, s: Step, i: nat)
    requires DistinctNodes(p.nodes) && i < |p.nodes| && Imports(p.nodes, s)
    ensures var mc1 := Take(p, mc, s).1;
            Look(mc1, Pair(p.nodes[i].node, p.target)) ==
            Some(Attempted(p.nodes[i], Limit(p.nodes, s.attempt, s.maxAttempts), s.now))
  {
    var limit := Limit(p.nodes, s.attempt, s.maxAttempts);
    ImportThere(mc, p.target, p.nodes, AttemptEntries(p.nodes, limit, s.now), i);
  }

  lemma {:induction false} UseKeeps(p: Plugin, mc: Table, steps: seq<Step>, pair: Pair)
    ensures var (p1, mc1) := Use(p, mc, steps);
            && p1 == p.(changed := p.changed || exists s <- steps :: Imports(p.nodes, s) && s.reply.Ack?)
            && (Quiet(p, mc, steps, pair) && (!Selected(p, pair) || forall s <- steps :: !Imports(p.nodes, s)) ==>
                  Look(mc1, pair) == Look(mc, pair))
    decreases |steps|
  {
    if steps != [] {
      var first, rest := steps[0], steps[1..];
      assert steps == [first] + rest;
      TakeKeeps(p, mc, first, pair);
      var (p1, mc1) := Take(p, mc, first);
      UseKeeps(p1, mc1, rest, pair);
    }
  }

  /** After its last import, a selected pair is left at what that one imported. */
  lemma {:induction false} UseImports(p: Plugin, mc: Table, steps: seq<Step>, i: nat) returns (last: Step)
    requires DistinctNodes(p.nodes) && i < |p.nodes| && exists s <- steps :: Imports(p.nodes, s)
    requires Quiet(p, mc, steps, Pair(p.nodes[i].node, p.target))
    ensures last in steps && Imports(p.nodes, last)
    ensures Look(Use(p, mc, steps).1, Pair(p.nodes[i].node, p.target)) ==
            Some(Attempted(p.nodes[i], Limit(p.nodes, last.attempt, last.maxAttempts), last.now))
    decreases |steps|
  {
    var pair := Pair(p.nodes[i].node, p.target);
    var first, rest := steps[0], steps[1..];
    assert steps == [first] + rest;
    TakeKeeps(p, mc, first, pair);
    var (p1, mc1) := Take(p, mc, first);
    if exists s <- rest :: Imports(p.nodes, s) {
      last := UseImports(p1, mc1, rest, i);
    } else {
      last := first;
      TakeImports(p, mc, first, i);
      UseKeeps(p1, mc1, rest, pair);
    }
  }

  /** The plugin as Init leaves it. */
  ghost predicate Initialized(p: Plugin, mc: Table, nodes: set<Node>) {
    && p.saved == Some(Save(mc, nodes, p.target)) && !p.changed
    && DistinctNodes(p.nodes) && (forall n <- p.nodes :: n.node in nodes)
  }

  /** The entry discourages the peer: it failed just now, with the smallest amount. */
  predicate Discourages(e: Entry, now: int) {
    e.failTime == Some(now) && e.failAmt == 1 && e.successTime.None? && e.successAmt == 0
  }

  /** The entry encourages the peer: its capacity, in satoshis, succeeded just now. */
  predicate Encourages(e: Entry, capacity: nat, now: int) {
    e.failTime.None? && e.failAmt == 0 && e.successTime == Some(now) && e.successAmt == capacity * 1000
  }

  lemma AttemptedExactly(nodes: seq<NodeFee>, attempt: int, maxAttempts: int, now: int, i: nat)
    requires Ascending(nodes) && i < |nodes| && maxAttempts > 0
    ensures var minFee, maxFee := nodes[0].fee, nodes[|nodes| - 1].fee;
            var e := Attempted(nodes[i], Limit(nodes, attempt, maxAttempts), now);
            if nodes[i].fee < minFee + (maxFee - minFee) / maxAttempts * attempt then Discourages(e, now)
            else Encourages(e, nodes[i].capacity, now)
    ensures i == |nodes| - 1 && attempt <= maxAttempts ==>
              Encourages(Attempted(nodes[i], Limit(nodes, attempt, maxAttempts), now), nodes[i].capacity, now)
  {
    if attempt <= maxAttempts {
      DearestStays(nodes, attempt, maxAttempts);
    }
  }

  /** What the table says of a ranked peer after any calls of which some imported, if
      nobody else changes its entry: as the last import found, a fee below the
      minimum plus so many steps of the range is discouraged, and any other is
      encouraged with the capacity; the dearest peer is never discouraged within
      the announced attempts. */
  lemma TableAfterImports(p: Plugin, mc: Table, steps: seq<Step>, i: nat) returns (last: Step)
    requires DistinctNodes(p.nodes) && Ascending(p.nodes) && i < |p.nodes|
    requires Quiet(p, mc, steps, Pair(p.nodes[i].node, p.target)) && exists s <- steps :: Imports(p.nodes, s)
    requires forall s <- steps :: s.Before? ==> s.maxAttempts > 0
    ensures last in steps && Imports(p.nodes, last)
    ensures var pair := Pair(p.nodes[i].node, p.target);
            var mc1 := Use(p, mc, steps).1;
            var minFee, maxFee := p.nodes[0].fee, p.nodes[|p.nodes| - 1].fee;
            && pair in mc1
            && (if p.nodes[i].fee < minFee + (maxFee - minFee) / last.maxAttempts * last.attempt
                then Discourages(mc1[pair], last.now)
                else Encourages(mc1[pair], p.nodes[i].capacity, last.now))
            && (i == |p.nodes| - 1 && last.attempt <= last.maxAttempts ==>
                  Encourages(mc1[pair], p.nodes[i].capacity, last.now))
  {
    last := UseImports(p, mc, steps, i);
    AttemptedExactly(p.nodes, last.attempt, last.maxAttempts, last.now, i);
  }

  /** The entry is back at its amounts, with the times that were set moved to now. */
  predicate PutBack(e: Entry, before: Entry, now: int) {
    && e.failAmt == before.failAmt && e.successAmt == before.successAmt
    && e.failTime == (if before.failTime.Some? then Some(now) else None)
    && e.successTime == (if before.successTime.Some? then Some(now) else None)
  }

  /** The entry says that the capacity, in satoshis, succeeds and that more fails. */
  predicate AtCapacity(e: Entry, capacity: nat, now: int) {
    && e.successTime == Some(now) && e.successAmt == capacity * 1000
    && e.failTime == Some(now) && e.failAmt == capacity * 1000 + 1
  }

  /** After Init, any calls and Done, whatever happens to the table in between: if
      an import was acknowledged, every selected pair is back at the amounts it had
      at Init, or at its capacity if it had none; a pair that is not selected, or
      any pair if nothing was imported, is as it was, unless someone else changed
      it. */
  lemma Bracket(p: Plugin, mc: Table, nodes: set<Node>, steps: seq<Step>, now: int, pair: Pair)
    requires Initialized(p, mc, nodes)
    ensures var (p1, mc1) := Use(p, mc, steps);
            var (p2, mc2, outcome) := Finish(p1, mc1, now, Ack);
            && outcome == Completed && p2.saved.None?
            && (Selected(p, pair) && (exists s <- steps :: Imports(p.nodes, s) && s.reply.Ack?) ==>
                  exists n <- p.nodes :: n.node == pair.from && pair in mc2
                    && (if pair in mc then PutBack(mc2[pair], mc[pair], now)
                        else AtCapacity(mc2[pair], n.capacity, now)))
            && (Quiet(p, mc, steps, pair) && (!Selected(p, pair) || forall s <- steps :: !Imports(p.nodes, s)) ==>
                  Look(mc2, pair) == Look(mc, pair))
  {
    var (p1, mc1) := Use(p, mc, steps);
    UseKeeps(p, mc, steps, pair);
    if p1.changed {
      var entries := RestoreEntries(p.nodes, p.saved.value, now);
      if Selected(p, pair) {
        var i :| 0 <= i < |p.nodes| && p.nodes[i].node == pair.from;
        ImportThere(mc1, p.target, p.nodes, entries, i);
        assert p.nodes[i] in p.nodes;
        assert pair == Pair(p.nodes[i].node, p.target);
      } else {
        ImportElsewhere(mc1, p.target, p.nodes, entries, pair);
      }
    }
  }

  /** The remaining case: if imports were made and none was acknowledged, Done
      reports success and every selected pair stays as the last of them left it. */
  lemma BracketForgets(p: Plugin, mc: Table, nodes: set<Node>, steps: seq<Step>, now: int, reply: Reply, i: nat)
    returns (last: Step)
    requires Initialized(p, mc, nodes) && i < |p.nodes|
    requires Quiet(p, mc, steps, Pair(p.nodes[i].node, p.target))
    requires exists s <- steps :: Imports(p.nodes, s)
    requires forall s <- steps :: Imports(p.nodes, s) ==> !s.reply.Ack?
    ensures last in steps && Imports(p.nodes, last) && last.reply.Lost?
    ensures var (p1, mc1) := Use(p, mc, steps);
            var (p2, mc2, outcome) := Finish(p1, mc1, now, reply);
            && outcome == Completed && p2.saved.None?
            && Look(mc2, Pair(p.nodes[i].node, p.target)) ==
               Some(Attempted(p.nodes[i], Limit(p.nodes, last.attempt, last.maxAttempts), last.now))
  {
    last := UseImports(p, mc, steps, i);
    UseKeeps(p, mc, steps, Pair(p.nodes[i].node, p.target));
  }

  /** One such run: the peer that had succeeded with 500 stays marked as failing
      with 1. */
  lemma LostImportForgotten(p: Plugin, mc: Table, now: int)
    requires p.nodes == [NodeFee(1, 7, 10), NodeFee(2, 7, 20)] && p.target == 3
    requires mc == map[Pair(1, 3) := Entry(None, 0, Some(0), 500)] && Initialized(p, mc, {1, 2})
    ensures var (p1, mc1) := Use(p, mc, [Before(2, 5, now, Lost)]);
            var (_, mc2, outcome) := Finish(p1, mc1, now, Ack);
            outcome == Completed && Look(mc2, Pair(1, 3)) == Some(Entry(Some(now), 1, None, 0))
  {
    var s := Before(2, 5, now, Lost);
    assert Imports(p.nodes, s) by { DearestStays(p.nodes, 2, 5); }
    assert [s][1..] == [];
    var last := BracketForgets(p, mc, {1, 2}, [s], now, Ack, 0);
    assert last == s;
  }
}
