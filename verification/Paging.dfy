/** The paged listing of swaps (ListSwaps, loopd/swapclient_server.go). */
module Paging {
  import opened Arithmetic

  /** A swap and its initiation time in nanoseconds. */
  datatype Swap = Swap(id: int, time: int)

  /** The filter; whatever it says besides the start time is a predicate. */
  predicate Matches(s: Swap, wanted: Swap -> bool, start: int) {
    wanted(s) && !(start > 0 && s.time < start)
  }

  function Filter(walk: seq<Swap>, wanted: Swap -> bool, start: int): seq<Swap> {
    if walk == [] then []
    else
      Filter(walk[..|walk| - 1], wanted, start)
      + (if Matches(walk[|walk| - 1], wanted, start) then [walk[|walk| - 1]] else [])
  }

  /** Inserts before the later swaps. */
  function Insert(x: Swap, s: seq<Swap>): seq<Swap> {
    if s == [] || s[|s| - 1].time <= x.time then s + [x] else Insert(x, s[..|s| - 1]) + [s[|s| - 1]]
  }

  function Sort(s: seq<Swap>): seq<Swap> {
    if s == [] then [] else Insert(s[|s| - 1], Sort(s[..|s| - 1]))
  }

  datatype Page = Page(swaps: seq<Swap>, next: int)

  function Cut(sorted: seq<Swap>, maxSwaps: int): Page {
    if maxSwaps > 0 && |sorted| > maxSwaps then Page(sorted[..maxSwaps], sorted[maxSwaps - 1].time + 1)
    else Page(sorted, 0)
  }

  /** The answer to one request, the map of swaps being walked in some order. */
  function ListSwaps(walk: seq<Swap>, wanted: Swap -> bool, start: int, maxSwaps: int): Page {
    Cut(Sort(Filter(walk, wanted, start)), maxSwaps)
  }

  method List(walk: seq<Swap>, wanted: Swap -> bool, start: int, maxSwaps: int) returns (page: Page)
    ensures page == ListSwaps(walk, wanted, start, maxSwaps)
  {
    var infos := [];
    for i := 0 to |walk|
      invariant infos == Filter(walk[..i], wanted, start)
    {
      assert walk[..i + 1][..i] == walk[..i];
      if Matches(walk[i], wanted, start) {
        infos := infos + [walk[i]];
      }
    }
    assert walk[..|walk|] == walk;
    infos := Sort(infos);
    var canPage := false;
    if maxSwaps > 0 && |infos| > maxSwaps {
      canPage := true;
      infos := infos[..maxSwaps];
    }
    var next := 0;
    if canPage && |infos| > 0 {
      next := infos[|infos| - 1].time + 1;
    }
    return Page(infos, next);
  }

  // ----- Sorting -----

  ghost predicate Ascending(s: seq<Swap>) {
    forall i, j :: 0 <= i < j < |s| ==> s[i].time <= s[j].time
  }

  lemma {:induction false} InsertMembers(x: Swap, s: seq<Swap>)
    ensures multiset(Insert(x, s)) == multiset(s) + multiset{x}
    ensures forall y :: y in Insert(x, s) <==> y == x || y in s
  {
    if s != [] && s[|s| - 1].time > x.time {
      InsertMembers(x, s[..|s| - 1]);
      assert s == s[..|s| - 1] + [s[|s| - 1]];
    }
  }

  lemma {:induction false} InsertAscending(x: Swap, s: seq<Swap>)
    requires Ascending(s)
    ensures Ascending(Insert(x, s))
  {
    if s != [] && s[|s| - 1].time > x.time {
      var init, last := s[..|s| - 1], s[|s| - 1];
      InsertAscending(x, init);
      InsertMembers(x, init);
      var r := Insert(x, init);
      assert forall i :: 0 <= i < |r| ==> r[i] in r;
    }
  }

  lemma {:induction false} SortCorrect(s: seq<Swap>)
    ensures multiset(Sort(s)) == multiset(s) && Ascending(Sort(s))
    ensures forall y :: y in Sort(s) <==> y in s
  {
    if s != [] {
      var init, last := s[..|s| - 1], s[|s| - 1];
      SortCorrect(init);
      InsertAscending(last, Sort(init));
      SortMembers(s, init, last, Sort(init));
    }
  }

  lemma SortMembers(s: seq<Swap>, init: seq<Swap>, last: Swap, sorted: seq<Swap>)
    requires s != [] && init == s[..|s| - 1] && last == s[|s| - 1]
    requires multiset(sorted) == multiset(init)
    ensures multiset(Insert(last, sorted)) == multiset(s)
    ensures forall y :: y in Insert(last, sorted) <==> y in s
  {
    InsertMembers(last, sorted);
    assert s == init + [last];
    forall y
      ensures y in Insert(last, sorted) <==> y in s
    {
      assert y in multiset(s) <==> y in s;
    }
  }

  // ----- Later pages of one and the same walk -----

  /** Those not before a time. */
  function From(s: seq<Swap>, start: int): seq<Swap> {
    if s == [] then []
    else From(s[..|s| - 1], start) + (if s[|s| - 1].time >= start then [s[|s| - 1]] else [])
  }

  lemma FromAppend(s: seq<Swap>, x: Swap, start: int)
    ensures From(s + [x], start) == From(s, start) + (if x.time >= start then [x] else [])
  {
    assert (s + [x])[..|s|] == s;
  }

  lemma InsertBefore(x: Swap, s: seq<Swap>, last: Swap)
    requires x.time < last.time
    ensures Insert(x, s + [last]) == Insert(x, s) + [last]
  {
    assert (s + [last])[..|s|] == s;
  }

  lemma InsertLast(x: Swap, s: seq<Swap>)
    requires forall y <- s :: y.time <= x.time
    ensures Insert(x, s) == s + [x]
  {
  }

  lemma {:induction false} InsertFrom(x: Swap, s: seq<Swap>, start: int)
    requires Ascending(s)
    ensures From(Insert(x, s), start) == if x.time >= start then Insert(x, From(s, start)) else From(s, start)
  {
    if s == [] || s[|s| - 1].time <= x.time {
      FromAppend(s, x, start);
      FromMembers(s, start);
      if x.time >= start {
        InsertLast(x, From(s, start));
      } else {
        assert From(s, start) + [] == From(s, start);
      }
    } else {
      var init, last := s[..|s| - 1], s[|s| - 1];
      assert s == init + [last];
      InsertFrom(x, init, start);
      FromAppend(Insert(x, init), last, start);
      FromAppend(init, last, start);
      if x.time >= start {
        InsertBefore(x, From(init, start), last);
      }
    }
  }

  lemma {:induction false} FromMembers(s: seq<Swap>, start: int)
    ensures forall y :: y in From(s, start) <==> y in s && y.time >= start
    ensures |From(s, start)| <= |s|
  {
    if s != [] {
      FromMembers(s[..|s| - 1], start);
      assert s == s[..|s| - 1] + [s[|s| - 1]];
    }
  }

  lemma {:induction false} SortFrom(s: seq<Swap>, start: int)
    ensures Sort(From(s, start)) == From(Sort(s), start)
  {
    if s != [] {
      var init, last := s[..|s| - 1], s[|s| - 1];
      SortFrom(init, start);
      SortCorrect(init);
      InsertFrom(last, Sort(init), start);
      if last.time >= start {
        assert From(s, start)[..|From(init, start)|] == From(init, start);
      } else {
        assert From(init, start) + [] == From(init, start);
      }
    }
  }

  lemma {:induction false} FilterFrom(walk: seq<Swap>, wanted: Swap -> bool, start: int)
    requires start > 0
    ensures Filter(walk, wanted, start) == From(Filter(walk, wanted, 0), start)
  {
    if walk != [] {
      var init, last := walk[..|walk| - 1], walk[|walk| - 1];
      FilterFrom(init, wanted, start);
      if wanted(last) {
        FromAppend(Filter(init, wanted, 0), last, start);
      } else {
        assert Filter(init, wanted, 0) + [] == Filter(init, wanted, 0);
      }
    }
  }

  // ----- Following the pages -----

  /** All pages of an ascending list, each starting where the last one said. */
  function Pages(sorted: seq<Swap>, n: nat): seq<Swap>
    requires n > 0
    decreases |sorted|
  {
    if |sorted| <= n then sorted
    else
      FromShrinks(sorted, n);
      sorted[..n] + Pages(From(sorted, sorted[n - 1].time + 1), n)
  }

  lemma FromShrinks(s: seq<Swap>, n: nat)
    requires 0 < n <= |s|
    ensures |From(s, s[n - 1].time + 1)| < |s|
  {
    Dropped(s, s[n - 1].time + 1, n - 1);
  }

  lemma {:induction false} Dropped(s: seq<Swap>, start: int, i: nat)
    requires i < |s| && s[i].time < start
    ensures |From(s, start)| < |s|
  {
    if i < |s| - 1 {
      Dropped(s[..|s| - 1], start, i);
    } else {
      FromMembers(s[..|s| - 1], start);
    }
  }

  /** What a client collects that follows the next start times, for as many requests
      as it makes, and whether it saw the end. */
  function Follow(walk: seq<Swap>, wanted: Swap -> bool, n: nat, start: int, requests: nat): (seq<Swap>, bool)
    decreases requests
  {
    if requests == 0 then ([], false)
    else
      var page := ListSwaps(walk, wanted, start, n);
      if page.next == 0 then (page.swaps, true)
      else
        var (rest, done) := Follow(walk, wanted, n, page.next, requests - 1);
        (page.swaps + rest, done)
  }

  lemma FromTwice(s: seq<Swap>, a: int, b: int)
    requires a <= b
    ensures From(From(s, a), b) == From(s, b)
  {
    if s != [] {
      var init, last := s[..|s| - 1], s[|s| - 1];
      FromTwice(init, a, b);
      if last.time >= a {
        FromAppend(From(init, a), last, b);
      } else {
        assert From(init, a) + [] == From(init, a);
      }
    }
  }

  /** The listing from a start time is that part of the whole listing. */
  lemma ListedFrom(walk: seq<Swap>, wanted: Swap -> bool, start: int)
    requires start > 0
    ensures Sort(Filter(walk, wanted, start)) == From(Sort(Filter(walk, wanted, 0)), start)
  {
    FilterFrom(walk, wanted, start);
    SortFrom(Filter(walk, wanted, 0), start);
  }

  lemma PagesStep(sorted: seq<Swap>, n: nat)
    requires 0 < n < |sorted|
    ensures Pages(sorted, n) == sorted[..n] + Pages(From(sorted, sorted[n - 1].time + 1), n)
  {
  }

  /** The same for any listing of what is there from a start time on. */
  function FollowBy(list: int -> seq<Swap>, n: nat, start: int, requests: nat): (seq<Swap>, bool)
    decreases requests
  {
    if requests == 0 then ([], false)
    else
      var page := Cut(list(start), n);
      if page.next == 0 then (page.swaps, true)
      else
        var (rest, done) := FollowBy(list, n, page.next, requests - 1);
        (page.swaps + rest, done)
  }

  /** A later start time drops what comes before it, at the time of a listed swap. */
  ghost predicate Suffixes(list: int -> seq<Swap>) {
    forall start, i :: 0 <= start && 0 <= i < |list(start)| ==>
      && list(start)[i].time >= 0
      && list(list(start)[i].time + 1) == From(list(start), list(start)[i].time + 1)
  }

  ghost predicate Lists(list: int -> seq<Swap>, walk: seq<Swap>, wanted: Swap -> bool) {
    forall start :: list(start) == Sort(Filter(walk, wanted, start))
  }

  lemma {:induction false} FollowIs(
      walk: seq<Swap>, wanted: Swap -> bool, list: int -> seq<Swap>, n: nat, start: int, requests: nat)
    requires Lists(list, walk, wanted)
    ensures Follow(walk, wanted, n, start, requests) == FollowBy(list, n, start, requests)
    decreases requests
  {
    if requests > 0 {
      var page := Cut(list(start), n);
      assert page == ListSwaps(walk, wanted, start, n);
      FollowIs(walk, wanted, list, n, page.next, requests - 1);
    }
  }

  lemma {:induction false} FollowByPages(list: int -> seq<Swap>, n: nat, start: int, requests: nat)
    requires n > 0 && start >= 0 && Suffixes(list) && requests > |list(start)|
    ensures FollowBy(list, n, start, requests) == (Pages(list(start), n), true)
    decreases requests
  {
    var sorted := list(start);
    if |sorted| > n {
      var next := sorted[n - 1].time + 1;
      FromShrinks(sorted, n);
      FollowByPages(list, n, next, requests - 1);
      PagesStep(sorted, n);
    }
  }

  ghost predicate SinceEpoch(walk: seq<Swap>) {
    forall s <- walk :: s.time >= 0
  }

  /** With one more request than there are swaps the client sees the end, and it
      has collected the pages of the whole listing. */
  lemma FollowPages(walk: seq<Swap>, wanted: Swap -> bool, n: nat, requests: nat, sorted: seq<Swap>)
    requires n > 0 && SinceEpoch(walk) && sorted == Sort(Filter(walk, wanted, 0)) && requests > |sorted|
    ensures Follow(walk, wanted, n, 0, requests) == (Pages(sorted, n), true)
  {
    var list := (start: int) => Sort(Filter(walk, wanted, start));
    assert list(0) == sorted;
    FollowListed(walk, wanted, list, n, requests);
  }

  lemma FollowListed(walk: seq<Swap>, wanted: Swap -> bool, list: int -> seq<Swap>, n: nat, requests: nat)
    requires n > 0 && SinceEpoch(walk) && Lists(list, walk, wanted) && requests > |list(0)|
    ensures Follow(walk, wanted, n, 0, requests) == (Pages(list(0), n), true)
  {
    forall start, i | 0 <= start && 0 <= i < |list(start)|
      ensures list(start)[i].time >= 0
      ensures list(list(start)[i].time + 1) == From(list(start), list(start)[i].time + 1)
    {
      ListedSuffix(walk, wanted, list, start, i);
    }
    FollowIs(walk, wanted, list, n, 0, requests);
    FollowByPages(list, n, 0, requests);
  }

  lemma ListedSuffix(walk: seq<Swap>, wanted: Swap -> bool, list: int -> seq<Swap>, start: int, i: nat)
    requires SinceEpoch(walk) && Lists(list, walk, wanted) && 0 <= start && i < |list(start)|
    ensures list(start)[i].time >= 0
    ensures list(list(start)[i].time + 1) == From(list(start), list(start)[i].time + 1)
  {
    NextListing(walk, wanted, start, list(start), i);
  }

  lemma NextListing(walk: seq<Swap>, wanted: Swap -> bool, start: int, sorted: seq<Swap>, i: nat)
    requires start >= 0 && SinceEpoch(walk)
    requires sorted == Sort(Filter(walk, wanted, start)) && i < |sorted|
    ensures sorted[i].time >= 0
    ensures Sort(Filter(walk, wanted, sorted[i].time + 1)) == From(sorted, sorted[i].time + 1)
  {
    var last := sorted[i];
    assert last in sorted;
    ListedOne(walk, wanted, start, last);
    ListedNext(walk, wanted, start, last.time + 1);
  }

  lemma ListedOne(walk: seq<Swap>, wanted: Swap -> bool, start: int, s: Swap)
    requires s in Sort(Filter(walk, wanted, start)) && SinceEpoch(walk)
    ensures s.time >= 0 && start <= s.time + 1
  {
    ListedMembers(walk, wanted, start);
    StartBefore(walk, wanted, start, s);
  }

  lemma StartBefore(walk: seq<Swap>, wanted: Swap -> bool, start: int, s: Swap)
    requires Matches(s, wanted, start) && s.time >= 0
    ensures start <= s.time + 1
  {
  }

  lemma ListedNext(walk: seq<Swap>, wanted: Swap -> bool, start: int, next: int)
    requires 0 <= start <= next && next > 0
    ensures Sort(Filter(walk, wanted, next)) == From(Sort(Filter(walk, wanted, start)), next)
  {
    ListedFrom(walk, wanted, next);
    if start > 0 {
      ListedFrom(walk, wanted, start);
      FromTwice(Sort(Filter(walk, wanted, 0)), start, next);
    }
  }

  lemma {:induction false} FilterMembers(walk: seq<Swap>, wanted: Swap -> bool, start: int)
    ensures forall s :: s in Filter(walk, wanted, start) <==> s in walk && Matches(s, wanted, start)
  {
    if walk != [] {
      FilterMembers(walk[..|walk| - 1], wanted, start);
      assert walk == walk[..|walk| - 1] + [walk[|walk| - 1]];
    }
  }

  lemma ListedMembers(walk: seq<Swap>, wanted: Swap -> bool, start: int)
    ensures forall s :: s in Sort(Filter(walk, wanted, start)) <==> s in walk && Matches(s, wanted, start)
  {
    FilterMembers(walk, wanted, start);
    SortCorrect(Filter(walk, wanted, start));
  }

  /** What a request asks for: wanted, and not before a start time if one is given. */
  ghost predicate Asked(s: Swap, wanted: Swap -> bool, start: int) {
    wanted(s) && (start > 0 ==> s.time >= start)
  }

  ghost function Count(walk: seq<Swap>, wanted: Swap -> bool, start: int): nat {
    if walk == [] then 0
    else Count(walk[..|walk| - 1], wanted, start) + (if Asked(walk[|walk| - 1], wanted, start) then 1 else 0)
  }

  lemma {:induction false} FilterCounts(walk: seq<Swap>, wanted: Swap -> bool, start: int)
    ensures |Filter(walk, wanted, start)| == Count(walk, wanted, start)
  {
    if walk != [] {
      FilterCounts(walk[..|walk| - 1], wanted, start);
    }
  }

  /** Without a page size, all that was asked for and nothing else. */
  lemma AllListed(walk: seq<Swap>, wanted: Swap -> bool, start: int, all: seq<Swap>)
    requires all == Sort(Filter(walk, wanted, start))
    ensures |all| == Count(walk, wanted, start) && Ascending(all)
    ensures forall s :: s in all <==> s in walk && Asked(s, wanted, start)
  {
    SortCorrect(Filter(walk, wanted, start));
    assert |all| == |multiset(all)|;
    FilterCounts(walk, wanted, start);
    ListedMembers(walk, wanted, start);
    assert forall s :: Matches(s, wanted, start) <==> Asked(s, wanted, start);
  }

  /** None of those left out is earlier than the last of a page. */
  lemma OthersLater(all: seq<Swap>, n: nat, s: Swap)
    requires Ascending(all) && 0 < n < |all| && s in all
    ensures s in all[..n] || s.time >= all[n - 1].time
  {
    var i :| 0 <= i < |all| && all[i] == s;
    if i < n {
      assert all[..n][i] == s;
    }
  }

  /** One answer, whatever the page size: it lists swaps that were asked for, in ascending
      order. Without a page size, or with one that they fit, these are all of them and
      there is no next start time. Otherwise there are as many as the page size says, none
      of the others is earlier, and the next start time is right after the last of them. */
  lemma ListedExactly(walk: seq<Swap>, wanted: Swap -> bool, start: int, maxSwaps: int, page: Page)
    requires page == ListSwaps(walk, wanted, start, maxSwaps)
    ensures Ascending(page.swaps)
    ensures forall s <- page.swaps :: s in walk && Asked(s, wanted, start)
    ensures maxSwaps <= 0 || Count(walk, wanted, start) <= maxSwaps ==>
              && page.next == 0
              && |page.swaps| == Count(walk, wanted, start)
              && forall s <- walk :: Asked(s, wanted, start) ==> s in page.swaps
    ensures 0 < maxSwaps < Count(walk, wanted, start) ==>
              && |page.swaps| == maxSwaps && page.next == page.swaps[maxSwaps - 1].time + 1
              && forall s <- walk :: Asked(s, wanted, start) ==>
                   s in page.swaps || s.time >= page.swaps[maxSwaps - 1].time
  {
    var all := Sort(Filter(walk, wanted, start));
    AllListed(walk, wanted, start, all);
    if 0 < maxSwaps < |all| {
      forall s | s in walk && Asked(s, wanted, start)
        ensures s in page.swaps || s.time >= page.swaps[maxSwaps - 1].time
      {
        OthersLater(all, maxSwaps, s);
      }
    }
  }

  // ----- When the pages are complete -----

  /** No page ends between two swaps of the same time. */
  ghost predicate NoSplit(sorted: seq<Swap>, n: nat) {
    forall k: nat :: 0 < k * n < |sorted| ==> sorted[k * n - 1].time < sorted[k * n].time
  }

  lemma {:induction false} FromSuffix(s: seq<Swap>, i: nat)
    requires Ascending(s) && 0 < i <= |s| && (i < |s| ==> s[i - 1].time < s[i].time)
    ensures From(s, s[i - 1].time + 1) == s[i..]
  {
    var start := s[i - 1].time + 1;
    if i == |s| {
      NothingFrom(s, start);
    } else {
      var init, last := s[..|s| - 1], s[|s| - 1];
      FromSuffix(init, i);
      assert last.time >= s[i].time;
      assert s == init + [last];
      FromAppend(init, last, start);
      assert s[i..] == init[i..] + [last];
    }
  }

  lemma {:induction false} NothingFrom(s: seq<Swap>, start: int)
    requires forall x <- s :: x.time < start
    ensures From(s, start) == []
  {
    if s != [] {
      NothingFrom(s[..|s| - 1], start);
      assert s[|s| - 1] in s;
    }
  }

  lemma {:induction false} FromAscending(s: seq<Swap>, start: int)
    requires Ascending(s)
    ensures Ascending(From(s, start))
  {
    if s != [] {
      FromAscending(s[..|s| - 1], start);
      FromMembers(s[..|s| - 1], start);
      var r := From(s[..|s| - 1], start);
      assert forall i :: 0 <= i < |r| ==> r[i] in r;
    }
  }

  /** The start time drops at least the swaps that come before it. */
  lemma {:induction false} DropsAtLeast(s: seq<Swap>, start: int, n: nat)
    requires n <= |s| && forall i :: 0 <= i < n ==> s[i].time < start
    ensures |From(s, start)| <= |s| - n
  {
    if s != [] {
      DropsAtLeast(s[..|s| - 1], start, if n < |s| then n else n - 1);
    }
  }

  lemma {:induction false} PagesNoMore(sorted: seq<Swap>, n: nat)
    requires n > 0 && Ascending(sorted)
    ensures |Pages(sorted, n)| <= |sorted|
    decreases |sorted|
  {
    if |sorted| > n {
      var next := sorted[n - 1].time + 1;
      FromShrinks(sorted, n);
      FromAscending(sorted, next);
      PagesNoMore(From(sorted, next), n);
      DropsAtLeast(sorted, next, n);
    }
  }

  lemma NoSplitRest(sorted: seq<Swap>, n: nat)
    requires 0 < n < |sorted|
    ensures NoSplit(sorted, n) <==> sorted[n - 1].time < sorted[n].time && NoSplit(sorted[n..], n)
  {
    var rest := sorted[n..];
    if NoSplit(sorted, n) {
      assert 0 < 1 * n < |sorted|;
      forall k: nat | 0 < k * n < |rest|
        ensures rest[k * n - 1].time < rest[k * n].time
      {
        assert (k + 1) * n == k * n + n;
        assert sorted[(k + 1) * n - 1].time < sorted[(k + 1) * n].time;
      }
    }
    if sorted[n - 1].time < sorted[n].time && NoSplit(rest, n) {
      forall k: nat | 0 < k * n < |sorted|
        ensures sorted[k * n - 1].time < sorted[k * n].time
      {
        if k > 1 {
          var m: nat := k - 1;
          assert m * n == k * n - n && m * n > 0;
          assert rest[m * n - 1].time < rest[m * n].time;
        }
      }
    }
  }

  /** The pages are the whole listing if and only if no page ends between two swaps
      of the same time. */
  lemma {:induction false} PagesComplete(sorted: seq<Swap>, n: nat)
    requires n > 0 && Ascending(sorted)
    ensures Pages(sorted, n) == sorted <==> NoSplit(sorted, n)
    decreases |sorted|
  {
    if |sorted| <= n {
      AtMostOnePage(sorted, n);
    } else {
      NoSplitRest(sorted, n);
      var next := sorted[n - 1].time + 1;
      PagesStep(sorted, n);
      if sorted[n - 1].time < sorted[n].time {
        FromSuffix(sorted, n);
        PagesComplete(sorted[n..], n);
        SamePrefix(sorted, n, Pages(sorted[n..], n));
      } else {
        FromAscending(sorted, next);
        DropsAtLeast(sorted, next, n + 1);
        PagesNoMore(From(sorted, next), n);
      }
    }
  }

  lemma SamePrefix(sorted: seq<Swap>, n: nat, rest: seq<Swap>)
    requires n <= |sorted|
    ensures sorted[..n] + rest == sorted <==> rest == sorted[n..]
  {
  }

  lemma AtMostOnePage(sorted: seq<Swap>, n: nat)
    requires 0 < n && |sorted| <= n
    ensures NoSplit(sorted, n)
  {
    if !NoSplit(sorted, n) {
      var k: nat :| 0 < k * n < |sorted| && sorted[k * n - 1].time >= sorted[k * n].time;
      MulMonotonic(n, 1, k);
      assert false;
    }
  }

  /** Over an unchanging set of swaps with times that are not negative, for every
      positive page size: a client that follows the next start times from zero sees
      the end, and has collected the whole listing, every match once and in
      ascending order, if and only if no page ends between two swaps of one time. */
  lemma PagingExactly(walk: seq<Swap>, wanted: Swap -> bool, n: nat, requests: nat)
    requires n > 0 && SinceEpoch(walk)
    requires requests > |Filter(walk, wanted, 0)|
    ensures var all := Sort(Filter(walk, wanted, 0));
            var (swaps, done) := Follow(walk, wanted, n, 0, requests);
            && multiset(all) == multiset(Filter(walk, wanted, 0)) && Ascending(all)
            && done
            && (swaps == all <==> NoSplit(all, n))
  {
    var all := Sort(Filter(walk, wanted, 0));
    SortCorrect(Filter(walk, wanted, 0));
    assert |all| == |multiset(all)|;
    FollowPages(walk, wanted, n, requests, all);
    PagesComplete(all, n);
  }

  lemma TwoListed(a: Swap, b: Swap, wanted: Swap -> bool)
    requires wanted(a) && wanted(b) && a.time <= b.time
    ensures Filter([a, b], wanted, 0) == [a, b] && Sort([a, b]) == [a, b]
  {
    var none: seq<Swap> := [];
    assert [a, b][..1] == [a] && [a][..0] == none;
    assert Filter([a], wanted, 0) == none + [a] == [a];
    assert Sort([a]) == Insert(a, none) == [a];
  }

  lemma OnePageOfTwo(a: Swap, b: Swap)
    requires a.time == b.time
    ensures Pages([a, b], 1) == [a]
  {
    PagesStep([a, b], 1);
    NothingFrom([a, b], a.time + 1);
  }

  /** Swaps of the same time get lost at the end of a page: of two such swaps, a
      client that asks for one at a time is told after the first that it has seen
      the end. */
  lemma SameTimeLost(a: Swap, b: Swap, wanted: Swap -> bool, requests: nat)
    requires wanted(a) && wanted(b) && a.time == b.time >= 0 && requests > 2
    ensures Follow([a, b], wanted, 1, 0, requests) == ([a], true)
  {
    TwoListed(a, b, wanted);
    OnePageOfTwo(a, b);
    FollowPages([a, b], wanted, 1, requests, [a, b]);
  }

  // ----- Distinct times -----

  ghost predicate DistinctTimes(s: seq<Swap>) {
    forall i, j :: 0 <= i < j < |s| ==> s[i].time != s[j].time
  }

  ghost predicate Strict(s: seq<Swap>) {
    forall i, j :: 0 <= i < j < |s| ==> s[i].time < s[j].time
  }

  lemma {:induction false} InsertStrict(x: Swap, s: seq<Swap>)
    requires Strict(s) && forall y <- s :: y.time != x.time
    ensures Strict(Insert(x, s))
  {
    if s != [] {
      var init, last := s[..|s| - 1], s[|s| - 1];
      assert last in s;
      if last.time > x.time {
        InsertStrict(x, init);
        InsertMembers(x, init);
        var r := Insert(x, init);
        assert forall i :: 0 <= i < |r| ==> r[i] in r;
      }
    }
  }

  lemma {:induction false} SortStrict(s: seq<Swap>)
    requires DistinctTimes(s)
    ensures Strict(Sort(s))
  {
    if s != [] {
      SortStrict(s[..|s| - 1]);
      SortCorrect(s[..|s| - 1]);
      InsertStrict(s[|s| - 1], Sort(s[..|s| - 1]));
    }
  }

  lemma {:induction false} FilterDistinct(walk: seq<Swap>, wanted: Swap -> bool, start: int)
    requires DistinctTimes(walk)
    ensures DistinctTimes(Filter(walk, wanted, start))
  {
    if walk != [] {
      var init := walk[..|walk| - 1];
      FilterDistinct(init, wanted, start);
      FilterMembers(init, wanted, start);
      var r := Filter(init, wanted, start);
      assert forall i :: 0 <= i < |r| ==> r[i] in r;
    }
  }

  ghost predicate SameMembers(a: seq<Swap>, b: seq<Swap>) {
    forall x :: x in a <==> x in b
  }

  /** A strictly ascending list is determined by its members. */
  lemma {:induction false} StrictUnique(a: seq<Swap>, b: seq<Swap>)
    requires Strict(a) && Strict(b) && SameMembers(a, b)
    ensures a == b
  {
    assert |a| > 0 ==> a[0] in a && a[0] in b;
    assert |b| > 0 ==> b[0] in b && b[0] in a;
    if a != [] && b != [] {
      var a', b' := a[..|a| - 1], b[..|b| - 1];
      var x, y := a[|a| - 1], b[|b| - 1];
      assert x in a && x in b && y in b && y in a;
      assert x == y;
      LastOnly(a);
      LastOnly(b);
      forall z <- a'
        ensures z in b'
      {
        assert z in a && z in b;
      }
      forall z <- b'
        ensures z in a'
      {
        assert z in b && z in a;
      }
      StrictUnique(a', b');
    }
  }

  lemma LastOnly(a: seq<Swap>)
    requires Strict(a) && a != []
    ensures forall x :: x in a[..|a| - 1] <==> x in a && x != a[|a| - 1]
  {
    assert a == a[..|a| - 1] + [a[|a| - 1]];
  }

  /** With distinct times, the order in which the map is walked does not matter. */
  lemma SameListing(a: seq<Swap>, b: seq<Swap>, wanted: Swap -> bool, start: int)
    requires DistinctTimes(a) && DistinctTimes(b) && SameMembers(a, b)
    ensures Sort(Filter(a, wanted, start)) == Sort(Filter(b, wanted, start))
  {
    FilterDistinct(a, wanted, start);
    FilterDistinct(b, wanted, start);
    SortStrict(Filter(a, wanted, start));
    SortStrict(Filter(b, wanted, start));
    ListedMembers(a, wanted, start);
    ListedMembers(b, wanted, start);
    StrictUnique(Sort(Filter(a, wanted, start)), Sort(Filter(b, wanted, start)));
  }

  /** Each request walks the map in an order of its own. */
  function FollowWalks(walks: seq<seq<Swap>>, wanted: Swap -> bool, n: nat, start: int): (seq<Swap>, bool)
    decreases |walks|
  {
    if walks == [] then ([], false)
    else
      var page := ListSwaps(walks[0], wanted, start, n);
      if page.next == 0 then (page.swaps, true)
      else
        var (rest, done) := FollowWalks(walks[1..], wanted, n, page.next);
        (page.swaps + rest, done)
  }

  ghost predicate WalksOf(walks: seq<seq<Swap>>, walk: seq<Swap>) {
    forall w <- walks :: DistinctTimes(w) && SameMembers(w, walk)
  }

  lemma {:induction false} WalksFollow(walks: seq<seq<Swap>>, walk: seq<Swap>, wanted: Swap -> bool, n: nat, start: int)
    requires DistinctTimes(walk) && WalksOf(walks, walk)
    ensures FollowWalks(walks, wanted, n, start) == Follow(walk, wanted, n, start, |walks|)
    decreases |walks|
  {
    if walks != [] {
      assert walks[0] in walks;
      SameListing(walks[0], walk, wanted, start);
      var page := ListSwaps(walk, wanted, start, n);
      WalksFollow(walks[1..], walk, wanted, n, page.next);
      WalksStep(walks, walk, wanted, n, start, page);
    }
  }

  lemma WalksStep(walks: seq<seq<Swap>>, walk: seq<Swap>, wanted: Swap -> bool, n: nat, start: int, page: Page)
    requires walks != [] && ListSwaps(walks[0], wanted, start, n) == page == ListSwaps(walk, wanted, start, n)
    requires FollowWalks(walks[1..], wanted, n, page.next) == Follow(walk, wanted, n, page.next, |walks| - 1)
    ensures FollowWalks(walks, wanted, n, start) == Follow(walk, wanted, n, start, |walks|)
  {
  }

  /** With distinct times that are not negative, and whatever order each request
      walks the map in, following the pages yields every match once and in
      ascending order. */
  lemma PagingRefinesListing(walks: seq<seq<Swap>>, walk: seq<Swap>, wanted: Swap -> bool, n: nat)
    requires n > 0 && DistinctTimes(walk) && SinceEpoch(walk) && WalksOf(walks, walk)
    requires |walks| > |Filter(walk, wanted, 0)|
    ensures FollowWalks(walks, wanted, n, 0) == (Sort(Filter(walk, wanted, 0)), true)
  {
    var all := Sort(Filter(walk, wanted, 0));
    WalksFollow(walks, walk, wanted, n, 0);
    PagingExactly(walk, wanted, n, |walks|);
    FilterDistinct(walk, wanted, 0);
    SortStrict(Filter(walk, wanted, 0));
    assert NoSplit(all, n);
  }
}
