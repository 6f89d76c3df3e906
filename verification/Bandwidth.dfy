/** Whether an amount can be sent in parts over a set of channels
    (hasBandwidth, loopd/swapclient_server.go). */
module Bandwidth {
  import opened Options

  datatype Channel = Channel(local: nat, reserve: nat) {
    function Available(): nat {
      if reserve >= local then 0 else local - reserve
    }
  }

  /** What each channel can pay without going below its reserve. */
  function Balances(channels: seq<Channel>): (b: seq<nat>)
    ensures |b| == |channels|
    ensures forall i :: 0 <= i < |b| ==>
              if b[i] > 0 then b[i] + channels[i].reserve == channels[i].local
              else channels[i].local <= channels[i].reserve
  {
    seq(|channels|, i requires 0 <= i < |channels| => channels[i].Available())
  }

  function Sum(b: seq<nat>): nat {
    if b == [] then 0 else Sum(b[..|b| - 1]) + b[|b| - 1]
  }

  /** The first channel that can pay the amount alone. */
  function FirstPayer(b: seq<nat>, split: int): (i: Option<nat>)
    ensures i.Some? ==> i.value < |b| && b[i.value] >= split && forall j :: 0 <= j < i.value ==> b[j] < split
    ensures i.None? ==> forall j :: 0 <= j < |b| ==> b[j] < split
  {
    if b == [] then None
    else match FirstPayer(b[..|b| - 1], split)
      case Some(i) => Some(i)
      case None => if b[|b| - 1] >= split then Some(|b| - 1) else None
  }

  function Natural(x: int): nat {
    if x < 0 then 0 else x
  }

  /** The loop, from any of its states. A part that nobody can pay is halved, and
      after each payment all that remains is tried first. */
  function Route(b: seq<nat>, amount: int, split: int, shard: nat, maxParts: int): (bool, nat)
    requires b == [] ==> amount == 0
    decreases Natural(maxParts + 1 - shard), Natural(split)
  {
    if shard > maxParts then (false, 0)
    else match FirstPayer(b, split)
      case Some(i) =>
        if amount == split then (true, shard + 1)
        else Route(b[i := b[i] - split], amount - split, amount - split, shard + 1, maxParts)
      case None =>
        if amount == 0 then (true, shard)
        else
          assert b[0] < split;
          Route(b, amount, split / 2, shard, maxParts)
  }

  datatype Loop = Running(b: seq<nat>, amount: int, split: int, shard: nat) | Done(ok: bool, parts: nat)

  /** Division as in the source, toward zero. */
  function Halved(x: int): int {
    if x < 0 then -(-x / 2) else x / 2
  }

  /** One iteration of the loop, for any amount and any channels. */
  function Iterate(l: Loop, maxParts: int): Loop {
    match l
    case Done(_, _) => l
    case Running(b, amount, split, shard) =>
      if shard > maxParts then Done(false, 0)
      else match FirstPayer(b, split)
        case Some(i) =>
          if amount == split then Done(true, shard + 1)
          else Running(b[i := b[i] - split], amount - split, amount - split, shard + 1)
        case None =>
          if amount == 0 then Done(true, shard) else Running(b, amount, Halved(split), shard)
  }

  function Iterations(l: Loop, maxParts: int, n: nat): Loop
    decreases n
  {
    if n == 0 then l else Iterations(Iterate(l, maxParts), maxParts, n - 1)
  }

  lemma RoutePays(b: seq<nat>, amount: int, split: int, shard: nat, maxParts: int, i: nat, left: seq<nat>)
    requires (b == [] ==> amount == 0) && shard <= maxParts && amount != split
    requires FirstPayer(b, split) == Some(i) && left == b[i := b[i] - split]
    ensures left != []
    ensures Route(b, amount, split, shard, maxParts) == Route(left, amount - split, amount - split, shard + 1, maxParts)
  {
  }

  lemma RouteHalves(b: seq<nat>, amount: int, split: int, shard: nat, maxParts: int, half: int)
    requires (b == [] ==> amount == 0) && shard <= maxParts && FirstPayer(b, split).None? && amount != 0
    requires half == split / 2
    ensures 0 <= half < split
    ensures Route(b, amount, split, shard, maxParts) == Route(b, amount, half, shard, maxParts)
  {
    assert b[0] < split;
  }

  lemma IterationsStep(l: Loop, next: Loop, maxParts: int, n: nat)
    requires Iterate(l, maxParts) == next
    ensures Iterations(l, maxParts, n + 1) == Iterations(next, maxParts, n)
  {
  }

  lemma RouteStops(b: seq<nat>, amount: int, split: int, shard: nat, maxParts: int)
    requires b == [] ==> amount == 0
    requires shard <= maxParts ==> if FirstPayer(b, split).Some? then amount == split else amount == 0
    ensures var (ok, parts) := Route(b, amount, split, shard, maxParts);
            Iterate(Running(b, amount, split, shard), maxParts) == Done(ok, parts)
  {
  }

  /** The loop ends, with the answer of Route. */
  lemma {:induction false} LoopEnds(b: seq<nat>, amount: int, split: int, shard: nat, maxParts: int) returns (n: nat)
    requires b == [] ==> amount == 0
    ensures var (ok, parts) := Route(b, amount, split, shard, maxParts);
            Iterations(Running(b, amount, split, shard), maxParts, n) == Done(ok, parts)
    decreases Natural(maxParts + 1 - shard), Natural(split)
  {
    var l, next := Running(b, amount, split, shard), Iterate(Running(b, amount, split, shard), maxParts);
    var payer := FirstPayer(b, split);
    if shard <= maxParts && payer.Some? && amount != split {
      RoutePays(b, amount, split, shard, maxParts, payer.value, next.b);
      n := LoopEnds(next.b, next.amount, next.split, next.shard, maxParts);
    } else if shard <= maxParts && payer.None? && amount != 0 {
      RouteHalves(b, amount, split, shard, maxParts, next.split);
      n := LoopEnds(next.b, next.amount, next.split, next.shard, maxParts);
    } else {
      RouteStops(b, amount, split, shard, maxParts);
      n := 0;
    }
    IterationsStep(l, next, maxParts, n);
    n := n + 1;
  }

  /** Without channels a negative amount is never settled: no part is paid, and the
      part to try shrinks to zero and stays there. */
  lemma {:induction false} NeverEnds(amount: int, split: int, maxParts: int, n: nat)
    requires amount < 0 && maxParts >= 0
    ensures Iterations(Running([], amount, split, 0), maxParts, n).Running?
    decreases n
  {
    if n > 0 {
      NeverEnds(amount, Halved(split), maxParts, n - 1);
    }
  }

  /** The amounts for which the loop ends whatever the limit is. */
  predicate Settles(channels: seq<Channel>, amount: int) {
    channels == [] ==> amount >= 0
  }

  function HasBandwidth(channels: seq<Channel>, amount: int, maxParts: int): (bool, nat)
    requires Settles(channels, amount)
  {
    var b := Balances(channels);
    if Sum(b) < amount then (false, 0) else Route(b, amount, amount, 0, maxParts)
  }

  method CheckBandwidth(channels: seq<Channel>, amount: int, maxParts: int) returns (ok: bool, parts: nat)
    requires Settles(channels, amount)
    ensures (ok, parts) == HasBandwidth(channels, amount, maxParts)
  {
    var balances, total := ReadBalances(channels);
    if total < amount {
      return false, 0;
    }
    ok, parts := Search(balances, amount, maxParts);
  }

  method ReadBalances(channels: seq<Channel>) returns (balances: array<nat>, total: nat)
    ensures fresh(balances) && balances[..] == Balances(channels) && total == Sum(Balances(channels))
  {
    balances := new nat[|channels|](_ => 0);
    total := 0;
    ghost var b := Balances(channels);
    for i := 0 to |channels|
      invariant balances[..i] == b[..i] && total == Sum(b[..i])
    {
      balances[i] := channels[i].Available();
      assert balances[i] == b[i];
      total := total + balances[i];
      assert b[..i + 1][..i] == b[..i] && balances[..i + 1] == balances[..i] + [balances[i]];
    }
    assert balances[..] == balances[..|channels|] && b[..|channels|] == b;
  }

  /** Charges the balances in place. */
  method Search(balances: array<nat>, amount: int, maxParts: int) returns (ok: bool, parts: nat)
    requires balances.Length == 0 ==> amount == 0
    modifies balances
    ensures (ok, parts) == Route(old(balances[..]), amount, amount, 0, maxParts)
  {
    var amt, split, shard := amount, amount, 0;
    while shard <= maxParts
      invariant balances.Length == 0 ==> amt == 0
      invariant Route(balances[..], amt, split, shard, maxParts) ==
                Route(old(balances[..]), amount, amount, 0, maxParts)
      decreases Natural(maxParts + 1 - shard), Natural(split)
    {
      var payer := FindPayer(balances, split);
      if payer < balances.Length {
        ghost var before := balances[..];
        balances[payer] := balances[payer] - split;
        assert balances[..] == before[payer := before[payer] - split];
        if amt != split {
          RoutePays(before, amt, split, shard, maxParts, payer, balances[..]);
        }
        amt, shard := amt - split, shard + 1;
        if amt == 0 {
          return true, shard;
        }
        split := amt;
      } else {
        if amt == 0 {
          return true, shard;
        }
        RouteHalves(balances[..], amt, split, shard, maxParts, split / 2);
        split := split / 2;
      }
    }
    return false, 0;
  }

  method FindPayer(balances: array<nat>, split: int) returns (i: nat)
    ensures i <= balances.Length
    ensures FirstPayer(balances[..], split) == if i < balances.Length then Some(i) else None
  {
    i := 0;
    while i < balances.Length
      invariant i <= balances.Length
      invariant forall j :: 0 <= j < i ==> balances[j] < split
    {
      if balances[i] >= split {
        assert balances[..][i] >= split;
        return;
      }
      i := i + 1;
    }
  }

  // ----- A true answer has a witness -----

  datatype Shard = Shard(channel: nat, amount: int)

  /** The parts that the loop pays. */
  function Shards(b: seq<nat>, amount: int, split: int, shard: nat, maxParts: int): seq<Shard>
    requires b == [] ==> amount == 0
    decreases Natural(maxParts + 1 - shard), Natural(split)
  {
    if shard > maxParts then []
    else match FirstPayer(b, split)
      case Some(i) =>
        if amount == split then [Shard(i, split)]
        else [Shard(i, split)] + Shards(b[i := b[i] - split], amount - split, amount - split, shard + 1, maxParts)
      case None =>
        if amount == 0 then []
        else
          assert b[0] < split;
          Shards(b, amount, split / 2, shard, maxParts)
  }

  function Paid(shards: seq<Shard>): int {
    if shards == [] then 0 else shards[0].amount + Paid(shards[1..])
  }

  function Charged(shards: seq<Shard>, channel: nat): int {
    if shards == [] then 0
    else (if shards[0].channel == channel then shards[0].amount else 0) + Charged(shards[1..], channel)
  }

  /** The parts add up to the amount, and no channel is charged more than it has. */
  ghost predicate Pays(b: seq<nat>, amount: int, shards: seq<Shard>) {
    && Paid(shards) == amount
    && (forall s <- shards :: s.channel < |b|)
    && (forall i :: 0 <= i < |b| ==> Charged(shards, i) <= b[i])
  }

  lemma PaysMore(b: seq<nat>, amount: int, i: nat, split: int, shards: seq<Shard>)
    requires i < |b| && split <= b[i] && Pays(b[i := b[i] - split], amount - split, shards)
    ensures Pays(b, amount, [Shard(i, split)] + shards)
  {
  }

  lemma PaysWhole(b: seq<nat>, i: nat, split: int)
    requires i < |b| && split <= b[i]
    ensures Pays(b, split, [Shard(i, split)])
  {
  }

  lemma {:induction false} RouteSound(b: seq<nat>, amount: int, split: int, shard: nat, maxParts: int)
    requires b == [] ==> amount == 0
    requires shard <= maxParts + 1
    ensures var (ok, parts) := Route(b, amount, split, shard, maxParts);
            var shards := Shards(b, amount, split, shard, maxParts);
            && parts <= maxParts + 1
            && (ok ==> parts == shard + |shards| && Pays(b, amount, shards))
    decreases Natural(maxParts + 1 - shard), Natural(split)
  {
    if shard <= maxParts {
      match FirstPayer(b, split)
      case Some(i) =>
        if amount == split {
          PaysWhole(b, i, split);
        } else {
          var b1 := b[i := b[i] - split];
          RouteSound(b1, amount - split, amount - split, shard + 1, maxParts);
          if Route(b1, amount - split, amount - split, shard + 1, maxParts).0 {
            PaysMore(b, amount, i, split, Shards(b1, amount - split, amount - split, shard + 1, maxParts));
          }
        }
      case None =>
        if amount != 0 {
          assert b[0] < split;
          RouteSound(b, amount, split / 2, shard, maxParts);
        }
    }
  }

  /** The amount, halved so many times. */
  function Halvings(amount: int, k: nat): int {
    if k == 0 then amount else Halvings(amount, k - 1) / 2
  }

  ghost predicate NobodyPays(b: seq<nat>, amount: int, k: nat) {
    forall j: nat, i :: j < k && 0 <= i < |b| ==> b[i] < Halvings(amount, j)
  }

  /** Each part is all that remains, halved until somebody can pay it, and the first
      channel that can does. */
  ghost predicate Greedy(b: seq<nat>, amount: int, shards: seq<Shard>)
    decreases |shards|
  {
    shards == [] ||
    (var Shard(i, part) := shards[0];
     && i < |b| && part <= b[i] && (forall j :: 0 <= j < i ==> b[j] < part)
     && (exists k: nat :: part == Halvings(amount, k) && NobodyPays(b, amount, k))
     && Greedy(b[i := b[i] - part], amount - part, shards[1..]))
  }

  lemma GreedyStep(b: seq<nat>, amount: int, i: nat, part: int, k: nat, rest: seq<Shard>)
    requires FirstPayer(b, part) == Some(i) && part == Halvings(amount, k) && NobodyPays(b, amount, k)
    requires Greedy(b[i := b[i] - part], amount - part, rest)
    ensures Greedy(b, amount, [Shard(i, part)] + rest)
  {
    assert ([Shard(i, part)] + rest)[1..] == rest;
  }

  lemma NobodyPaysMore(b: seq<nat>, amount: int, k: nat)
    requires NobodyPays(b, amount, k) && FirstPayer(b, Halvings(amount, k)).None?
    ensures NobodyPays(b, amount, k + 1)
  {
    forall j: nat, i | j < k + 1 && 0 <= i < |b|
      ensures b[i] < Halvings(amount, j)
    {
      if j == k {
        assert b[i] < Halvings(amount, k);
      }
    }
  }

  lemma GreedyWhole(b: seq<nat>, amount: int, i: nat, part: int, k: nat)
    requires FirstPayer(b, part) == Some(i) && part == Halvings(amount, k) && NobodyPays(b, amount, k)
    ensures Greedy(b, amount, [Shard(i, part)])
  {
    assert [Shard(i, part)] + [] == [Shard(i, part)];
    GreedyStep(b, amount, i, part, k, []);
  }

  lemma {:induction false} ShardsGreedy(
      b: seq<nat>, amount: int, split: int, shard: nat, maxParts: int, k: nat, shards: seq<Shard>)
    requires (b == [] ==> amount == 0) && split == Halvings(amount, k) && NobodyPays(b, amount, k)
    requires shards == Shards(b, amount, split, shard, maxParts)
    ensures Greedy(b, amount, shards)
    decreases Natural(maxParts + 1 - shard), Natural(split)
  {
    if shard > maxParts || (FirstPayer(b, split).None? && amount == 0) {
      assert shards == [];
    } else if FirstPayer(b, split).Some? {
      var i := FirstPayer(b, split).value;
      if amount == split {
        GreedyWhole(b, amount, i, split, k);
      } else {
        var left := b[i := b[i] - split];
        var rest := Shards(left, amount - split, amount - split, shard + 1, maxParts);
        assert shards == [Shard(i, split)] + rest;
        ShardsGreedy(left, amount - split, amount - split, shard + 1, maxParts, 0, rest);
        GreedyStep(b, amount, i, split, k, rest);
      }
    } else {
      assert b[0] < split;
      NobodyPaysMore(b, amount, k);
      ShardsGreedy(b, amount, split / 2, shard, maxParts, k + 1, shards);
    }
  }

  /** The parts add up to the amount, and each channel keeps its reserve. */
  ghost predicate PaysFrom(channels: seq<Channel>, amount: int, shards: seq<Shard>) {
    && Paid(shards) == amount
    && (forall s <- shards :: s.channel < |channels|)
    && forall i :: 0 <= i < |channels| && Charged(shards, i) > 0 ==>
         Charged(shards, i) + channels[i].reserve <= channels[i].local
  }

  /** A true answer is right: there are as many parts as it says, at most one more
      than allowed, that add up to the amount and leave each channel they charge
      with its reserve; and each is the most of what remained, halving it, that
      some channel could pay. */
  lemma BandwidthSound(channels: seq<Channel>, amount: int, maxParts: int)
    requires Settles(channels, amount)
    ensures var (ok, parts) := HasBandwidth(channels, amount, maxParts);
            ok ==> parts <= maxParts + 1
                   && exists shards :: |shards| == parts && PaysFrom(channels, amount, shards)
                                       && Greedy(Balances(channels), amount, shards)
  {
    var b := Balances(channels);
    if Sum(b) >= amount && maxParts >= -1 {
      if b == [] {
        assert amount == 0;
      }
      RouteSound(b, amount, amount, 0, maxParts);
      ShardsGreedy(b, amount, amount, 0, maxParts, 0, Shards(b, amount, amount, 0, maxParts));
      if HasBandwidth(channels, amount, maxParts).0 {
        var shards := Shards(b, amount, amount, 0, maxParts);
        assert |shards| == HasBandwidth(channels, amount, maxParts).1 && PaysFrom(channels, amount, shards);
      }
    }
  }

  /** One part more than allowed is indeed admitted. */
  lemma OneMoreThanAllowed()
    ensures HasBandwidth([Channel(5, 0), Channel(5, 0)], 10, 1) == (true, 2)
  {
  }

  // ----- The limit only cuts the search off -----

  lemma {:induction false} RouteLimit(b: seq<nat>, amount: int, split: int, shard: nat, maxParts: int, fewer: int)
    requires b != [] && (amount == 0 ==> split <= 0)
    requires fewer <= maxParts && Route(b, amount, split, shard, maxParts).0
    ensures var (_, parts) := Route(b, amount, split, shard, maxParts);
            && shard < parts
            && Route(b, amount, split, shard, fewer) == if parts <= fewer + 1 then (true, parts) else (false, 0)
    decreases Natural(maxParts + 1 - shard), Natural(split)
  {
    match FirstPayer(b, split)
    case Some(i) =>
      if amount != split {
        RouteLimit(b[i := b[i] - split], amount - split, amount - split, shard + 1, maxParts, fewer);
      }
    case None =>
      assert b[0] < split;
      RouteLimit(b, amount, split / 2, shard, maxParts, fewer);
  }

  /** The number of parts found does not depend on the limit: a smaller limit gives
      the same answer if it allows that number less one, and false otherwise. */
  lemma BandwidthLimit(channels: seq<Channel>, amount: int, maxParts: int, fewer: int)
    requires channels != [] && fewer <= maxParts && HasBandwidth(channels, amount, maxParts).0
    ensures var (_, parts) := HasBandwidth(channels, amount, maxParts);
            HasBandwidth(channels, amount, fewer) == if parts <= fewer + 1 then (true, parts) else (false, 0)
  {
    RouteLimit(Balances(channels), amount, amount, 0, maxParts, fewer);
  }

  // ----- Enough parts always do -----

  lemma {:induction false} SumAt(b: seq<nat>, i: nat, x: nat)
    requires i < |b|
    ensures Sum(b[i := x]) == Sum(b) - b[i] + x && b[i] <= Sum(b)
  {
    var init := b[..|b| - 1];
    if i == |b| - 1 {
      assert b[i := x][..|b| - 1] == init;
    } else {
      SumAt(init, i, x);
      assert b[i := x][..|b| - 1] == init[i := x];
    }
  }

  lemma {:induction false} AllZero(b: seq<nat>)
    requires forall i :: 0 <= i < |b| ==> b[i] < 1
    ensures Sum(b) == 0
  {
    if b != [] {
      AllZero(b[..|b| - 1]);
    }
  }

  /** The state after a payment, or after halving, still has enough and tries something. */
  lemma StaysAble(b: seq<nat>, amount: int, split: int)
    requires 0 < split <= amount <= Sum(b)
    ensures match FirstPayer(b, split)
            case Some(i) => amount - split <= Sum(b[i := b[i] - split])
            case None => 0 < split / 2
  {
    match FirstPayer(b, split)
    case Some(i) =>
      SumAt(b, i, b[i] - split);
    case None =>
      if split == 1 {
        AllZero(b);
        assert false;
      }
  }

  lemma {:induction false} RouteComplete(b: seq<nat>, amount: int, split: int, shard: nat, maxParts: int)
    requires 0 < split <= amount <= Sum(b) && shard + amount <= maxParts + 1
    ensures Route(b, amount, split, shard, maxParts).0
    decreases Natural(maxParts + 1 - shard), Natural(split)
  {
    StaysAble(b, amount, split);
    match FirstPayer(b, split)
    case Some(i) =>
      if amount != split {
        RouteComplete(b[i := b[i] - split], amount - split, amount - split, shard + 1, maxParts);
      }
    case None =>
      RouteComplete(b, amount, split / 2, shard, maxParts);
  }

  lemma {:induction false} ShardsPositive(b: seq<nat>, amount: int, split: int, shard: nat, maxParts: int)
    requires 0 < split <= amount <= Sum(b)
    ensures forall s <- Shards(b, amount, split, shard, maxParts) :: s.amount > 0
    decreases Natural(maxParts + 1 - shard), Natural(split)
  {
    if shard <= maxParts {
      StaysAble(b, amount, split);
      match FirstPayer(b, split)
      case Some(i) =>
        if amount != split {
          ShardsPositive(b[i := b[i] - split], amount - split, amount - split, shard + 1, maxParts);
        }
      case None =>
        ShardsPositive(b, amount, split / 2, shard, maxParts);
    }
  }

  /** All that the channels have above their reserves. */
  function Spendable(channels: seq<Channel>): nat {
    if channels == [] then 0
    else
      var c := channels[|channels| - 1];
      Spendable(channels[..|channels| - 1]) + (if c.local > c.reserve then c.local - c.reserve else 0)
  }

  lemma {:induction false} SpendableIsSum(channels: seq<Channel>)
    ensures Spendable(channels) == Sum(Balances(channels))
  {
    if channels != [] {
      var init := channels[..|channels| - 1];
      SpendableIsSum(init);
      assert Balances(channels)[..|init|] == Balances(init);
    }
  }

  /** Every part that is paid sends something, so that with as many parts as the
      amount has satoshis the answer is true exactly if the channels have that much
      above their reserves. */
  lemma BandwidthComplete(channels: seq<Channel>, amount: int, maxParts: int)
    requires 0 < amount
    ensures amount <= Spendable(channels) ==>
              forall s <- Shards(Balances(channels), amount, amount, 0, maxParts) :: s.amount > 0
    ensures amount <= maxParts + 1 ==>
              (HasBandwidth(channels, amount, maxParts).0 <==> amount <= Spendable(channels))
  {
    SpendableIsSum(channels);
    if amount <= Sum(Balances(channels)) {
      ShardsPositive(Balances(channels), amount, amount, 0, maxParts);
      if amount <= maxParts + 1 {
        RouteComplete(Balances(channels), amount, amount, 0, maxParts);
      }
    }
  }
}
