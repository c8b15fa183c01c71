/** Which price an invoice of a past period must carry, from the saved price changes and upgrades. */
module PriceHistory {
  import opened Prelude

  datatype Binding = Binding(at: int, source: string, target: string)

  // ---- The computation: sort once, scan once ----

  predicate Sorted(s: seq<Binding>) {
    forall i, j :: 0 <= i < j < |s| ==> s[i].at <= s[j].at
  }

  /** Put a binding after everything that takes effect no later. */
  function InsertLast(s: seq<Binding>, e: Binding): seq<Binding>
    decreases |s|
  {
    if s == [] || s[|s| - 1].at <= e.at then s + [e]
    else InsertLast(s[..|s| - 1], e) + [s[|s| - 1]]
  }

  /** Stable sort by effective time. */
  function ByTime(events: seq<Binding>): seq<Binding>
    decreases |events|
  {
    if events == [] then [] else InsertLast(ByTime(events[..|events| - 1]), events[|events| - 1])
  }

  lemma {:induction false} InsertKeepsElements(s: seq<Binding>, e: Binding)
    ensures multiset(InsertLast(s, e)) == multiset(s) + multiset{e} && |InsertLast(s, e)| == |s| + 1
    decreases |s|
  {
    if s != [] {
      assert s == s[..|s| - 1] + [s[|s| - 1]];
      InsertKeepsElements(s[..|s| - 1], e);
    }
  }

  lemma InsertedIsNew(s: seq<Binding>, e: Binding, x: Binding)
    ensures x in InsertLast(s, e) <==> x in s || x == e
  {
    InsertKeepsElements(s, e);
    assert x in InsertLast(s, e) <==> x in multiset(InsertLast(s, e));
  }

  lemma {:induction false} InsertKeepsSorted(s: seq<Binding>, e: Binding)
    requires Sorted(s)
    ensures Sorted(InsertLast(s, e))
    decreases |s|
  {
    if s != [] && e.at < s[|s| - 1].at {
      var rest, last := s[..|s| - 1], s[|s| - 1];
      InsertKeepsSorted(rest, e);
      forall x <- InsertLast(rest, e) ensures x.at <= last.at { InsertedIsNew(rest, e, x); }
    }
  }

  lemma {:induction false} SortingKeepsElements(events: seq<Binding>)
    ensures multiset(ByTime(events)) == multiset(events) && |ByTime(events)| == |events|
    decreases |events|
  {
    hide InsertLast;
    if events != [] {
      var rest, last := events[..|events| - 1], events[|events| - 1];
      SortingKeepsElements(rest);
      InsertKeepsElements(ByTime(rest), last);
      assert events == rest + [last];
    }
  }

  lemma {:induction false} SortingOrders(events: seq<Binding>)
    ensures Sorted(ByTime(events))
    decreases |events|
  {
    if events != [] {
      hide InsertLast, Sorted;
      SortingOrders(events[..|events| - 1]);
      InsertKeepsSorted(ByTime(events[..|events| - 1]), events[|events| - 1]);
    }
  }

  lemma SortingSorts(events: seq<Binding>)
    ensures Sorted(ByTime(events)) && multiset(ByTime(events)) == multiset(events) && |ByTime(events)| == |events|
  {
    hide *;
    SortingOrders(events);
    SortingKeepsElements(events);
  }

  lemma SortedHolds(events: seq<Binding>, x: Binding)
    ensures x in ByTime(events) <==> x in events
  {
    SortingSorts(events);
    assert x in ByTime(events) <==> x in multiset(ByTime(events));
  }

  lemma SortOneMore(events: seq<Binding>, e: Binding)
    ensures ByTime(events + [e]) == InsertLast(ByTime(events), e)
  {
    assert (events + [e])[..|events|] == events;
  }

  /** Scanning a list of bindings up to `t`. */
  function Scan(s: seq<Binding>, t: int, price: string): string
    decreases |s|
  {
    if s == [] then price
    else if s[|s| - 1].at <= t then s[|s| - 1].target
    else Scan(s[..|s| - 1], t, price)
  }

  function Expected(changes: seq<Binding>, upgrades: seq<Binding>, current: string, start: Option<int>): string {
    var events := ByTime(changes + upgrades);
    if start.None? || |events| == 0 then current else Scan(events, start.value, events[0].source)
  }

  method ExpectedInvoicePrice(changes: seq<Binding>, upgrades: seq<Binding>, current: string, start: Option<int>)
    returns (price: string)
    ensures price == Expected(changes, upgrades, current, start)
    ensures if start.None? then price == current else Decided(changes, upgrades, current, start.value, price)
  {
    if start.Some? { ExpectedIsDecided(changes, upgrades, current, start.value); }
    hide Decided;
    var events := ByTime(changes + upgrades);
    if events == [] || start.None? { return current; }
    price := events[0].source;
    for i := 0 to |events|
      invariant price == Scan(events[..i], start.value, events[0].source)
    {
      assert events[..i + 1][..i] == events[..i];
      if start.value >= events[i].at { price := events[i].target; }
      else { ScanStops(events, i, start.value); }
    }
    assert events[..|events|] == events;
  }

  lemma ScanStops(s: seq<Binding>, i: nat, t: int)
    requires i < |s| && t < s[i].at
    ensures forall price :: Scan(s[..i + 1], t, price) == Scan(s[..i], t, price)
  {
    assert s[..i + 1][..i] == s[..i];
  }

  // ---- What it means ----

  /** `e` is in force at `t`: the latest binding that has taken effect by then, an upgrade before a change. */
  ghost predicate InForce(changes: seq<Binding>, upgrades: seq<Binding>, e: Binding, t: int) {
    && e in changes + upgrades && e.at <= t
    && (forall x <- changes + upgrades :: x.at <= t ==> x.at <= e.at)
    && (e in upgrades || forall x <- upgrades :: x.at != e.at)
  }

  /** `e` is the earliest binding, a change before an upgrade. */
  ghost predicate Earliest(changes: seq<Binding>, upgrades: seq<Binding>, e: Binding) {
    && e in changes + upgrades
    && (forall x <- changes + upgrades :: e.at <= x.at)
    && (e in changes || forall x <- changes :: x.at != e.at)
  }

  ghost predicate DistinctTimes(events: seq<Binding>) {
    forall i, j :: 0 <= i < j < |events| ==> events[i].at != events[j].at
  }

  /** Of everything that has taken effect by `t`, nothing is later than `e`. */
  ghost predicate Latest(s: seq<Binding>, e: Binding, t: int) {
    e.at <= t && forall x <- s :: x.at <= t ==> x.at <= e.at
  }

  lemma LatestOfMore(s: seq<Binding>, last: Binding, e: Binding, t: int)
    ensures Latest(s + [last], e, t) <==> Latest(s, e, t) && (last.at <= t ==> last.at <= e.at)
  {
    if Latest(s + [last], e, t) {
      forall x <- s | x.at <= t ensures x.at <= e.at { assert x in s + [last]; }
      assert last in s + [last];
    }
  }

  lemma LastIsLatest(s: seq<Binding>, e: Binding, t: int)
    requires Sorted(s) && (s == [] || s[|s| - 1].at <= e.at) && e.at <= t
    ensures Latest(s, e, t)
  {
    forall x <- s ensures x.at <= e.at { var i :| 0 <= i < |s| && s[i] == x; }
  }

  lemma SortedPrefix(s: seq<Binding>)
    requires Sorted(s) && s != []
    ensures Sorted(s[..|s| - 1])
  {
  }

  lemma ScanAppended(s: seq<Binding>, e: Binding, t: int, price: string)
    ensures Scan(s + [e], t, price) == if e.at <= t then e.target else Scan(s, t, price)
  {
    assert (s + [e])[..|s|] == s;
  }

  /** An inserted binding decides a scan exactly if nothing that has taken effect is later. */
  lemma {:induction false} ScanInserted(s: seq<Binding>, e: Binding, t: int, price: string)
    requires Sorted(s)
    ensures Scan(InsertLast(s, e), t, price) == if Latest(s, e, t) then e.target else Scan(s, t, price)
    decreases |s|
  {
    if s == [] || s[|s| - 1].at <= e.at {
      if e.at <= t { LastIsLatest(s, e, t); }
      hide Latest, Sorted;
      ScanAppended(s, e, t, price);
      if e.at > t { assert !Latest(s, e, t) by { NotYet(s, e, t); } }
    } else {
      var rest, last := s[..|s| - 1], s[|s| - 1];
      SortedPrefix(s);
      hide Latest, Sorted;
      assert s == rest + [last];
      ScanInserted(rest, e, t, price);
      LatestOfMore(rest, last, e, t);
      ScanAppended(InsertLast(rest, e), last, t, price);
      ScanAppended(rest, last, t, price);
      if last.at > t && e.at > t { NotYet(s, e, t); }
    }
  }

  lemma NotYet(s: seq<Binding>, e: Binding, t: int)
    requires t < e.at
    ensures !Latest(s, e, t)
  {
  }

  ghost predicate ScanDecides(changes: seq<Binding>, upgrades: seq<Binding>, t: int, price: string, result: string) {
    || (exists e :: InForce(changes, upgrades, e, t) && result == e.target)
    || ((forall x <- changes + upgrades :: t < x.at) && result == price)
  }

  lemma SameLatest(a: seq<Binding>, b: seq<Binding>, e: Binding, t: int)
    requires forall x :: x in a <==> x in b
    ensures Latest(a, e, t) == Latest(b, e, t)
  {
  }

  lemma ScanSorted(events: seq<Binding>, e: Binding, t: int, price: string)
    ensures Scan(ByTime(events + [e]), t, price) ==
            if Latest(events, e, t) then e.target else Scan(ByTime(events), t, price)
  {
    SortOneMore(events, e);
    SortingSorts(events);
    ScanInserted(ByTime(events), e, t, price);
    forall x ensures x in ByTime(events) <==> x in events { SortedHolds(events, x); }
    SameLatest(ByTime(events), events, e, t);
  }

  /** What one more upgrade, read last of all, decides. */
  lemma DecidesWithUpgrade(changes: seq<Binding>, upgrades: seq<Binding>, e: Binding, t: int, price: string, result: string)
    requires ScanDecides(changes, upgrades, t, price, result)
    ensures ScanDecides(changes, upgrades + [e], t, price, if Latest(changes + upgrades, e, t) then e.target else result)
  {
    var u := upgrades + [e];
    assert forall x :: x in changes + u <==> x in changes + upgrades || x == e;
    if Latest(changes + upgrades, e, t) {
      assert InForce(changes, u, e, t);
    } else if exists x :: InForce(changes, upgrades, x, t) && result == x.target {
      var x :| InForce(changes, upgrades, x, t) && result == x.target;
      assert InForce(changes, u, x, t);
    }
  }

  lemma DecidesWithChange(changes: seq<Binding>, e: Binding, t: int, price: string, result: string)
    requires ScanDecides(changes, [], t, price, result)
    ensures ScanDecides(changes + [e], [], t, price, if Latest(changes, e, t) then e.target else result)
  {
    var c := changes + [e];
    assert c + [] == c && changes + [] == changes;
    assert forall x :: x in c <==> x in changes || x == e;
    if Latest(changes, e, t) {
      assert InForce(c, [], e, t);
    } else if exists x :: InForce(changes, [], x, t) && result == x.target {
      var x :| InForce(changes, [], x, t) && result == x.target;
      assert InForce(c, [], x, t);
    }
  }

  lemma {:induction false} ScanIsDecided(changes: seq<Binding>, upgrades: seq<Binding>, t: int, price: string)
    ensures ScanDecides(changes, upgrades, t, price, Scan(ByTime(changes + upgrades), t, price))
    decreases |changes| + |upgrades|
  {
    hide ByTime, Scan, ScanDecides, Latest;
    if upgrades != [] {
      var rest, e := upgrades[..|upgrades| - 1], upgrades[|upgrades| - 1];
      assert upgrades == rest + [e] && changes + upgrades == changes + rest + [e];
      ScanIsDecided(changes, rest, t, price);
      ScanSorted(changes + rest, e, t, price);
      DecidesWithUpgrade(changes, rest, e, t, price, Scan(ByTime(changes + rest), t, price));
    } else if changes != [] {
      var rest, e := changes[..|changes| - 1], changes[|changes| - 1];
      assert changes == rest + [e] && changes + upgrades == rest + [e] && rest + [] == rest;
      ScanIsDecided(rest, [], t, price);
      ScanSorted(rest, e, t, price);
      DecidesWithChange(rest, e, t, price, Scan(ByTime(rest), t, price));
    } else {
      NothingToScan(t, price);
    }
  }

  lemma NothingToScan(t: int, price: string)
    ensures ScanDecides([], [], t, price, Scan(ByTime([] + []), t, price))
  {
    var none: seq<Binding> := [];
    assert none + none == none && ByTime(none) == none;
  }

  lemma {:induction false} HeadInserted(s: seq<Binding>, e: Binding)
    requires Sorted(s)
    ensures InsertLast(s, e)[0] == if s == [] || e.at < s[0].at then e else s[0]
    decreases |s|
  {
    if s != [] && e.at < s[|s| - 1].at { HeadInserted(s[..|s| - 1], e); }
  }

  lemma HeadOfSorted(events: seq<Binding>, e: Binding)
    ensures ByTime(events + [e]) != [] && |ByTime(events)| == |events|
    ensures ByTime(events + [e])[0] == if events == [] || e.at < ByTime(events)[0].at then e else ByTime(events)[0]
  {
    SortOneMore(events, e);
    SortingSorts(events);
    HeadInserted(ByTime(events), e);
    InsertKeepsElements(ByTime(events), e);
  }

  lemma HeadOfChanges(changes: seq<Binding>)
    requires changes != []
    ensures ByTime(changes) != [] && Earliest(changes, [], ByTime(changes)[0])
  {
    SortingSorts(changes);
    var s := ByTime(changes);
    SortedHolds(changes, s[0]);
    forall x <- changes ensures s[0].at <= x.at {
      SortedHolds(changes, x);
      var i :| 0 <= i < |s| && s[i] == x;
    }
    hide ByTime;
    assert changes + [] == changes;
  }

  lemma EarliestWithUpgrade(changes: seq<Binding>, upgrades: seq<Binding>, e: Binding, first: Binding)
    requires if changes + upgrades == [] then first == e
             else exists f :: Earliest(changes, upgrades, f) && first == if e.at < f.at then e else f
    ensures Earliest(changes, upgrades + [e], first)
  {
    assert forall x :: x in changes + (upgrades + [e]) <==> x in changes + upgrades || x == e;
    if changes + upgrades == [] {
      assert forall x :: x !in changes + upgrades;
      assert forall x <- changes :: x in changes + upgrades;
    } else {
      var f :| Earliest(changes, upgrades, f) && first == if e.at < f.at then e else f;
      assert forall x <- changes :: x in changes + upgrades;
    }
  }

  /** Sorting puts the earliest binding in front, and of two equally early ones a change. */
  lemma {:induction false} HeadIsEarliest(changes: seq<Binding>, upgrades: seq<Binding>)
    requires changes + upgrades != []
    ensures ByTime(changes + upgrades) != [] && Earliest(changes, upgrades, ByTime(changes + upgrades)[0])
    decreases |upgrades|
  {
    hide ByTime, Earliest;
    if upgrades == [] {
      assert changes + upgrades == changes;
      HeadOfChanges(changes);
    } else {
      var rest, e := upgrades[..|upgrades| - 1], upgrades[|upgrades| - 1];
      assert upgrades == rest + [e] && changes + upgrades == changes + rest + [e];
      HeadOfSorted(changes + rest, e);
      if changes + rest != [] { HeadIsEarliest(changes, rest); }
      EarliestWithUpgrade(changes, rest, e, ByTime(changes + upgrades)[0]);
    }
  }

  /** The price comes from the binding in force at the start of the period; before all of them, from what
      the earliest replaced; without any, it is the current one. */
  ghost predicate Decided(changes: seq<Binding>, upgrades: seq<Binding>, current: string, t: int, price: string) {
    || (changes + upgrades == [] && price == current)
    || (exists e :: InForce(changes, upgrades, e, t) && price == e.target)
    || ((forall x <- changes + upgrades :: t < x.at) && exists e :: Earliest(changes, upgrades, e) && price == e.source)
  }

  lemma ExpectedIsDecided(changes: seq<Binding>, upgrades: seq<Binding>, current: string, t: int)
    ensures Decided(changes, upgrades, current, t, Expected(changes, upgrades, current, Some(t)))
  {
    var all := changes + upgrades;
    SortingSorts(all);
    if all != [] {
      HeadIsEarliest(changes, upgrades);
      ScanIsDecided(changes, upgrades, t, ByTime(all)[0].source);
      hide ByTime, Scan;
    }
  }

  lemma OnePerTime(events: seq<Binding>, x: Binding, y: Binding)
    requires DistinctTimes(events) && x in events && y in events && x.at == y.at
    ensures x == y
  {
    var i :| 0 <= i < |events| && events[i] == x;
    var j :| 0 <= j < |events| && events[j] == y;
  }

  ghost predicate SameTables(c1: seq<Binding>, u1: seq<Binding>, c2: seq<Binding>, u2: seq<Binding>) {
    multiset(c1) == multiset(c2) && multiset(u1) == multiset(u2)
  }

  lemma SameElements(c1: seq<Binding>, u1: seq<Binding>, c2: seq<Binding>, u2: seq<Binding>)
    requires SameTables(c1, u1, c2, u2)
    ensures forall x :: (x in c1 <==> x in c2) && (x in u1 <==> x in u2)
    ensures (c1 + u1 == []) <==> (c2 + u2 == [])
  {
    forall x ensures (x in c1 <==> x in c2) && (x in u1 <==> x in u2) {
      assert (x in multiset(c1) <==> x in multiset(c2)) && (x in multiset(u1) <==> x in multiset(u2));
    }
    assert |multiset(c1)| == |multiset(c2)| && |multiset(u1)| == |multiset(u2)|;
  }

  lemma InForceOnce(c: seq<Binding>, u: seq<Binding>, t: int, x: Binding, y: Binding)
    requires DistinctTimes(c) && DistinctTimes(u) && InForce(c, u, x, t) && InForce(c, u, y, t)
    ensures x == y
  {
    assert x.at == y.at;
    hide DistinctTimes;
    if x in u && y in u { OnePerTime(u, x, y); } else { OnePerTime(c, x, y); }
  }

  lemma EarliestOnce(c: seq<Binding>, u: seq<Binding>, x: Binding, y: Binding)
    requires DistinctTimes(c) && DistinctTimes(u) && Earliest(c, u, x) && Earliest(c, u, y)
    ensures x == y
  {
    assert x.at == y.at;
    hide DistinctTimes;
    if x in c && y in c { OnePerTime(c, x, y); } else { OnePerTime(u, x, y); }
  }

  /** The tables are read without an order. As long as no table has two bindings for one instant, that makes
      no difference. */
  lemma OrderDoesNotMatter(c1: seq<Binding>, u1: seq<Binding>, c2: seq<Binding>, u2: seq<Binding>, current: string, t: int)
    requires SameTables(c1, u1, c2, u2) && DistinctTimes(c1) && DistinctTimes(u1)
    ensures Expected(c1, u1, current, Some(t)) == Expected(c2, u2, current, Some(t))
  {
    SameElements(c1, u1, c2, u2);
    ExpectedIsDecided(c1, u1, current, t);
    ExpectedIsDecided(c2, u2, current, t);
    var p, q := Expected(c1, u1, current, Some(t)), Expected(c2, u2, current, Some(t));
    hide Expected, SameTables, DistinctTimes;
    forall e ensures InForce(c1, u1, e, t) == InForce(c2, u2, e, t) && Earliest(c1, u1, e) == Earliest(c2, u2, e) {}
    if c1 + u1 != [] {
      if exists e :: InForce(c1, u1, e, t) && p == e.target {
        var e :| InForce(c1, u1, e, t) && p == e.target;
        var f :| InForce(c2, u2, f, t) && q == f.target;
        InForceOnce(c1, u1, t, e, f);
      } else {
        var e :| Earliest(c1, u1, e) && p == e.source;
        var f :| Earliest(c2, u2, f) && q == f.source;
        EarliestOnce(c1, u1, e, f);
      }
    }
  }

  // ---- Histories ----

  /** An applied event and the table it is saved in. */
  datatype Applied = Applied(binding: Binding, isUpgrade: bool)

  function Changes(run: seq<Applied>): seq<Binding>
    decreases |run|
  {
    if run == [] then []
    else Changes(run[..|run| - 1]) + (if run[|run| - 1].isUpgrade then [] else [run[|run| - 1].binding])
  }

  function Upgrades(run: seq<Applied>): seq<Binding>
    decreases |run|
  {
    if run == [] then []
    else Upgrades(run[..|run| - 1]) + (if run[|run| - 1].isUpgrade then [run[|run| - 1].binding] else [])
  }

  function Bindings(run: seq<Applied>): seq<Binding>
    decreases |run|
  {
    if run == [] then [] else Bindings(run[..|run| - 1]) + [run[|run| - 1].binding]
  }

  /** The price at `t` when events are replayed in the order they were applied. */
  function Replay(initial: string, run: seq<Applied>, t: int): string
    decreases |run|
  {
    if run == [] then initial
    else if run[|run| - 1].binding.at <= t then run[|run| - 1].binding.target
    else Replay(initial, run[..|run| - 1], t)
  }

  function Current(initial: string, run: seq<Applied>): string {
    if run == [] then initial else run[|run| - 1].binding.target
  }

  function Last(run: seq<Applied>): Applied
    requires run != []
  {
    run[|run| - 1]
  }

  /** The event takes effect no earlier than the ones before it and replaces the price then current. */
  predicate Fits(initial: string, run: seq<Applied>, e: Applied) {
    e.binding.source == Current(initial, run) && (run != [] ==> Last(run).binding.at <= e.binding.at)
  }

  predicate Lawful(initial: string, run: seq<Applied>)
    decreases |run|
  {
    run != [] ==> Lawful(initial, run[..|run| - 1]) && Fits(initial, run[..|run| - 1], Last(run))
  }

  /** Two events in a row take effect at one instant only if the first is a change and the second an upgrade. */
  predicate TellsApart(run: seq<Applied>, e: Applied) {
    run != [] && Last(run).binding.at == e.binding.at ==> !Last(run).isUpgrade && e.isUpgrade
  }

  predicate Unambiguous(run: seq<Applied>)
    decreases |run|
  {
    run != [] ==> Unambiguous(run[..|run| - 1]) && TellsApart(run[..|run| - 1], Last(run))
  }

  lemma OneMoreEvent(initial: string, run: seq<Applied>, e: Applied)
    ensures Changes(run + [e]) == Changes(run) + if e.isUpgrade then [] else [e.binding]
    ensures Upgrades(run + [e]) == Upgrades(run) + if e.isUpgrade then [e.binding] else []
    ensures Bindings(run + [e]) == Bindings(run) + [e.binding]
    ensures Lawful(initial, run + [e]) <==> Lawful(initial, run) && Fits(initial, run, e)
    ensures Unambiguous(run + [e]) <==> Unambiguous(run) && TellsApart(run, e)
    ensures forall t :: Replay(initial, run + [e], t) == if e.binding.at <= t then e.binding.target else Replay(initial, run, t)
  {
    assert (run + [e])[..|run|] == run;
  }

  ghost predicate AllBy(s: seq<Binding>, at: int) { forall x <- s :: x.at <= at }

  ghost predicate AllBefore(s: seq<Binding>, at: int) { forall x <- s :: x.at < at }

  /** Nothing in the tables is later than the last event. */
  lemma {:induction false} TablesBy(initial: string, run: seq<Applied>, at: int)
    requires Lawful(initial, run) && (run != [] ==> Last(run).binding.at <= at)
    ensures AllBy(Changes(run) + Upgrades(run), at)
    ensures run != [] && Last(run).binding.at < at ==> AllBefore(Changes(run) + Upgrades(run), at)
    decreases |run|
  {
    if run != [] { TablesBy(initial, run[..|run| - 1], Last(run).binding.at); }
  }

  /** An event that can be told apart is later than all changes, or all upgrades, that matter to it. */
  lemma TablesBefore(initial: string, run: seq<Applied>, e: Applied)
    requires Lawful(initial, run) && Fits(initial, run, e) && Unambiguous(run) && TellsApart(run, e)
    ensures AllBefore(Upgrades(run), e.binding.at) && (!e.isUpgrade ==> AllBefore(Changes(run), e.binding.at))
  {
    if run != [] {
      var rest, y := run[..|run| - 1], Last(run);
      if y.binding.at < e.binding.at {
        TablesBy(initial, run, e.binding.at);
        Halves(Changes(run), Upgrades(run), e.binding.at);
      } else {
        TablesBy(initial, rest, e.binding.at);
        Halves(Changes(rest), Upgrades(rest), e.binding.at);
      }
    }
  }

  lemma Halves(c: seq<Binding>, u: seq<Binding>, at: int)
    ensures AllBefore(c + u, at) <==> AllBefore(c, at) && AllBefore(u, at)
    ensures AllBy(c + u, at) <==> AllBy(c, at) && AllBy(u, at)
  {
    assert forall x <- c :: x in c + u;
    assert forall x <- u :: x in c + u;
  }

  lemma OneMoreTime(s: seq<Binding>, e: Binding)
    requires DistinctTimes(s) && AllBefore(s, e.at)
    ensures DistinctTimes(s + [e])
  {
  }

  lemma {:induction false} OnePerTable(initial: string, run: seq<Applied>)
    requires Lawful(initial, run) && Unambiguous(run)
    ensures DistinctTimes(Changes(run)) && DistinctTimes(Upgrades(run))
    decreases |run|
  {
    if run != [] {
      var rest, e := run[..|run| - 1], Last(run);
      assert run == rest + [e];
      OneMoreEvent(initial, rest, e);
      OnePerTable(initial, rest);
      TablesBefore(initial, rest, e);
      hide Lawful, Unambiguous, Changes, Upgrades, DistinctTimes, AllBefore;
      if e.isUpgrade { OneMoreTime(Upgrades(rest), e.binding); } else { OneMoreTime(Changes(rest), e.binding); }
    }
  }

  /** A binding read last, with nothing later before it, ends up last. */
  lemma LastStaysLast(events: seq<Binding>, e: Binding)
    requires AllBy(events, e.at)
    ensures ByTime(events + [e]) == ByTime(events) + [e]
  {
    SortOneMore(events, e);
    SortingSorts(events);
    if ByTime(events) != [] { SortedHolds(events, ByTime(events)[|events| - 1]); }
  }

  lemma InsertedBefore(s: seq<Binding>, e: Binding, x: Binding)
    requires x.at < e.at
    ensures InsertLast(s + [e], x) == InsertLast(s, x) + [e]
  {
    assert (s + [e])[..|s|] == s;
  }

  lemma Regroup(a: seq<Binding>, m: seq<Binding>, rest: seq<Binding>, last: Binding)
    ensures a + m + (rest + [last]) == (a + m + rest) + [last]
  {
  }

  /** A binding later than all that are read after it ends up last as well. */
  lemma {:induction false} LatestEndsLast(a: seq<Binding>, e: Binding, b: seq<Binding>)
    requires AllBy(a, e.at) && AllBefore(b, e.at)
    ensures ByTime(a + [e] + b) == ByTime(a + b) + [e]
    decreases |b|
  {
    hide ByTime, InsertLast;
    if b == [] {
      assert a + [e] + b == a + [e] && a + b == a;
      LastStaysLast(a, e);
    } else {
      var rest, last := b[..|b| - 1], b[|b| - 1];
      assert b == rest + [last];
      LatestEndsLast(a, e, rest);
      Regroup(a, [e], rest, last);
      Regroup(a, [], rest, last);
      assert a + [] == a;
      SortOneMore(a + [e] + rest, last);
      SortOneMore(a + rest, last);
      InsertedBefore(ByTime(a + rest), e, last);
    }
  }

  /** The tables, read in the order in which they were written. */
  function Tables(run: seq<Applied>): seq<Binding> { Changes(run) + Upgrades(run) }

  /** A change that takes effect at the instant of the latest upgrade: changes are listed first. */
  predicate Overridden(run: seq<Applied>, e: Applied) {
    var u := Upgrades(run);
    !e.isUpgrade && u != [] && u[|u| - 1].at == e.binding.at
  }

  lemma {:induction false} LastUpgradeIsLatest(initial: string, run: seq<Applied>)
    requires Lawful(initial, run) && Upgrades(run) != []
    ensures AllBy(Upgrades(run), Upgrades(run)[|Upgrades(run)| - 1].at)
    decreases |run|
  {
    if Last(run).isUpgrade {
      TablesBy(initial, run, Last(run).binding.at);
      Halves(Changes(run), Upgrades(run), Last(run).binding.at);
    } else {
      LastUpgradeIsLatest(initial, run[..|run| - 1]);
    }
  }

  lemma UpgradesBefore(initial: string, run: seq<Applied>, e: Applied)
    requires Lawful(initial, run) && Fits(initial, run, e) && !e.isUpgrade && !Overridden(run, e)
    ensures AllBefore(Upgrades(run), e.binding.at)
  {
    var u := Upgrades(run);
    if u != [] {
      LastUpgradeIsLatest(initial, run);
      TablesBy(initial, run, e.binding.at);
      Halves(Changes(run), u, e.binding.at);
      assert u[|u| - 1] in u;
    }
  }

  /** An event that is not overridden is sorted behind everything before it. */
  lemma SortedBehind(initial: string, run: seq<Applied>, e: Applied)
    requires Lawful(initial, run) && Fits(initial, run, e) && !Overridden(run, e)
    ensures ByTime(Tables(run + [e])) == ByTime(Tables(run)) + [e.binding]
  {
    OneMoreEvent(initial, run, e);
    TablesBy(initial, run, e.binding.at);
    Halves(Changes(run), Upgrades(run), e.binding.at);
    if !e.isUpgrade { UpgradesBefore(initial, run, e); }
    hide Lawful, Changes, Upgrades, ByTime, AllBy, AllBefore, Fits;
    if e.isUpgrade {
      assert Tables(run + [e]) == Tables(run) + [e.binding];
      LastStaysLast(Tables(run), e.binding);
    } else {
      LatestEndsLast(Changes(run), e.binding, Upgrades(run));
      assert Tables(run + [e]) == Changes(run) + [e.binding] + Upgrades(run);
    }
  }

  /** An overridden one is sorted before the latest upgrade. */
  lemma SortedInFront(initial: string, run: seq<Applied>, e: Applied)
    requires Lawful(initial, run) && Fits(initial, run, e) && Overridden(run, e)
    ensures var u := Upgrades(run);
            ByTime(Tables(run + [e])) == ByTime(Changes(run) + [e.binding] + u[..|u| - 1]) + [u[|u| - 1]]
  {
    var c, u, at := Changes(run), Upgrades(run), e.binding.at;
    OneMoreEvent(initial, run, e);
    TablesBy(initial, run, at);
    Halves(c, u, at);
    hide Lawful, Changes, Upgrades, ByTime, Fits;
    var rest, last := u[..|u| - 1], u[|u| - 1];
    assert u == rest + [last];
    assert Tables(run + [e]) == (c + [e.binding] + rest) + [last];
    assert AllBy(c + [e.binding] + rest, at);
    LastStaysLast(c + [e.binding] + rest, last);
  }

  /** No change takes effect at the instant of an upgrade applied before it. */
  predicate InOrder(run: seq<Applied>)
    decreases |run|
  {
    run != [] ==> InOrder(run[..|run| - 1]) && !Overridden(run[..|run| - 1], Last(run))
  }

  lemma {:induction false} UnambiguousIsInOrder(initial: string, run: seq<Applied>)
    requires Lawful(initial, run) && Unambiguous(run)
    ensures InOrder(run)
    decreases |run|
  {
    if run != [] {
      var rest, e := run[..|run| - 1], Last(run);
      UnambiguousIsInOrder(initial, rest);
      TablesBefore(initial, rest, e);
      var u := Upgrades(rest);
      assert u != [] ==> u[|u| - 1] in u;
    }
  }

  /** Sorting both tables, in the order in which they were written, gives back the run. */
  lemma {:induction false} SortingRestoresTheRun(initial: string, run: seq<Applied>)
    requires Lawful(initial, run) && InOrder(run)
    ensures ByTime(Tables(run)) == Bindings(run)
    decreases |run|
  {
    if run != [] {
      var rest, e := run[..|run| - 1], Last(run);
      assert run == rest + [e];
      OneMoreEvent(initial, rest, e);
      SortingRestoresTheRun(initial, rest);
      SortedBehind(initial, rest, e);
    }
  }

  /** The first overridden change follows the upgrade directly. */
  lemma OverridingUpgradeIsLast(initial: string, run: seq<Applied>, e: Applied)
    requires Lawful(initial, run) && Fits(initial, run, e) && InOrder(run) && Overridden(run, e)
    ensures Last(run).isUpgrade && Upgrades(run)[|Upgrades(run)| - 1] == Last(run).binding
  {
    var rest, y := run[..|run| - 1], Last(run);
    if !y.isUpgrade {
      var u := Upgrades(rest);
      assert Upgrades(run) == u;
      LastUpgradeIsLatest(initial, rest);
      TablesBy(initial, rest, y.binding.at);
      Halves(Changes(rest), u, y.binding.at);
      assert false;
    }
  }

  lemma LastDiffers(a: seq<Binding>, x: Binding, b: seq<Binding>, y: Binding)
    requires x != y
    ensures a + [x] != b + [y]
  {
    var p, q := a + [x], b + [y];
    assert p[|p| - 1] == x && q[|q| - 1] == y;
  }

  /** The first overridden change is sorted out of place. */
  lemma OverriddenIsMisplaced(initial: string, run: seq<Applied>, e: Applied)
    requires Lawful(initial, run) && Fits(initial, run, e) && InOrder(run) && Overridden(run, e)
    requires e.binding.target != e.binding.source
    ensures ByTime(Tables(run + [e])) != Bindings(run + [e])
  {
    SortedInFront(initial, run, e);
    OneMoreEvent(initial, run, e);
    OverridingUpgradeIsLast(initial, run, e);
    var u := Upgrades(run);
    hide ByTime, Bindings, Tables, Lawful, Upgrades, Changes, InOrder;
    LastDiffers(ByTime(Changes(run) + [e.binding] + u[..|u| - 1]), u[|u| - 1], Bindings(run), e.binding);
  }

  predicate ChangesThePrice(run: seq<Applied>) { forall e <- run :: e.binding.target != e.binding.source }

  /** Sorting the tables as written gives back the run, at every point of its history. */
  predicate AlwaysRestored(run: seq<Applied>)
    decreases |run|
  {
    ByTime(Tables(run)) == Bindings(run) && (run != [] ==> AlwaysRestored(run[..|run| - 1]))
  }

  /** For events that change the price it does so exactly if no change takes effect at the instant of an
      upgrade before it. */
  lemma {:induction false} SortingRestoresIff(initial: string, run: seq<Applied>)
    requires Lawful(initial, run) && ChangesThePrice(run)
    ensures AlwaysRestored(run) <==> InOrder(run)
    decreases |run|
  {
    if run == [] {
      SortingRestoresTheRun(initial, run);
    } else {
      var rest, e := run[..|run| - 1], Last(run);
      assert run == rest + [e];
      SortingRestoresIff(initial, rest);
      if InOrder(run) { SortingRestoresTheRun(initial, run); }
      else if InOrder(rest) { OverriddenIsMisplaced(initial, rest, e); }
      hide ByTime, Tables, Bindings, Overridden;
    }
  }

  lemma {:induction false} ReplayIsScan(initial: string, run: seq<Applied>, t: int)
    ensures Replay(initial, run, t) == Scan(Bindings(run), t, initial)
    decreases |run|
  {
    if run != [] {
      assert Bindings(run)[..|Bindings(run)| - 1] == Bindings(run[..|run| - 1]);
      ReplayIsScan(initial, run[..|run| - 1], t);
    }
  }

  lemma {:induction false} FirstReplacesTheInitial(initial: string, run: seq<Applied>)
    requires Lawful(initial, run)
    ensures |Bindings(run)| == |run| && (run != [] ==> Bindings(run)[0].source == initial)
    decreases |run|
  {
    if run != [] { FirstReplacesTheInitial(initial, run[..|run| - 1]); }
  }

  /** However the tables are read, the fast form gives the price of the replay. */
  ghost predicate Faithful(initial: string, run: seq<Applied>) {
    forall c, u, t :: SameTables(Changes(run), Upgrades(run), c, u) ==>
      Expected(c, u, Current(initial, run), Some(t)) == Replay(initial, run, t)
  }

  /** The fast form is faithful: sorting both tables and scanning once equals replaying the events up to the
      start of the invoice's period. */
  lemma SortedScanIsReplay(initial: string, run: seq<Applied>)
    requires Lawful(initial, run) && Unambiguous(run)
    ensures Faithful(initial, run)
  {
    OnePerTable(initial, run);
    UnambiguousIsInOrder(initial, run);
    SortingRestoresTheRun(initial, run);
    FirstReplacesTheInitial(initial, run);
    hide Lawful, Unambiguous, Changes, Upgrades, Bindings, Replay, ByTime, Scan, DistinctTimes, SameTables;
    forall c, u, t | SameTables(Changes(run), Upgrades(run), c, u)
      ensures Expected(c, u, Current(initial, run), Some(t)) == Replay(initial, run, t)
    {
      ReplayIsScan(initial, run, t);
      OrderDoesNotMatter(Changes(run), Upgrades(run), c, u, Current(initial, run), t);
    }
  }

  lemma AsWritten(initial: string, run: seq<Applied>, t: int)
    requires Faithful(initial, run)
    ensures Expected(Changes(run), Upgrades(run), Current(initial, run), Some(t)) == Replay(initial, run, t)
  {
    assert SameTables(Changes(run), Upgrades(run), Changes(run), Upgrades(run));
  }

  /** Applying a later event whose source is the current price leaves the expected price of every earlier
      period alone, and yields the target from its effective time on. */
  lemma LaterEventKeepsThePast(initial: string, run: seq<Applied>, next: Applied, t: int)
    requires Lawful(initial, run + [next]) && Unambiguous(run + [next])
    ensures Expected(Changes(run + [next]), Upgrades(run + [next]), next.binding.target, Some(t)) ==
            if next.binding.at <= t then next.binding.target
            else Expected(Changes(run), Upgrades(run), Current(initial, run), Some(t))
  {
    OneMoreEvent(initial, run, next);
    SortedScanIsReplay(initial, run);
    SortedScanIsReplay(initial, run + [next]);
    AsWritten(initial, run, t);
    AsWritten(initial, run + [next], t);
    hide Expected, Lawful, Unambiguous, Faithful, Changes, Upgrades, Replay;
  }

  // ---- Events at one instant ----

  lemma ExpectedLast(c: seq<Binding>, u: seq<Binding>, s: seq<Binding>, e: Binding, current: string, t: int)
    requires ByTime(c + u) == s + [e] && e.at <= t
    ensures Expected(c, u, current, Some(t)) == e.target
  {
    ScanAppended(s, e, t, (s + [e])[0].source);
  }

  /** Read in the order written, the target of an event is the price from its effective time on exactly if it
      is not a change overridden by an upgrade of that instant, or both set the same price. */
  lemma EventTakesEffectIff(initial: string, run: seq<Applied>, next: Applied, t: int)
    requires Lawful(initial, run + [next]) && next.binding.at <= t
    ensures Expected(Changes(run + [next]), Upgrades(run + [next]), next.binding.target, Some(t)) == next.binding.target
            <==> (Overridden(run, next) ==> Upgrades(run)[|Upgrades(run)| - 1].target == next.binding.target)
  {
    var u, e := Upgrades(run), next.binding;
    OneMoreEvent(initial, run, next);
    if Overridden(run, next) {
      SortedInFront(initial, run, next);
      ExpectedLast(Changes(run + [next]), Upgrades(run + [next]),
                   ByTime(Changes(run) + [e] + u[..|u| - 1]), u[|u| - 1], e.target, t);
    } else {
      SortedBehind(initial, run, next);
      ExpectedLast(Changes(run + [next]), Upgrades(run + [next]), ByTime(Tables(run)), e, e.target, t);
    }
  }

  lemma UpgradesSwapped(c: seq<Binding>, u: seq<Binding>, y: Binding, e: Binding, current: string)
    requires AllBy(c, e.at) && AllBy(u, e.at) && y.at == e.at
    ensures Expected(c, u + [e] + [y], current, Some(e.at)) == y.target
  {
    assert c + (u + [e] + [y]) == (c + u + [e]) + [y];
    LastStaysLast(c + u + [e], y);
    hide ByTime, Expected;
    ExpectedLast(c, u + [e] + [y], ByTime(c + u + [e]), y, current, e.at);
  }

  lemma ChangesSwapped(c: seq<Binding>, u: seq<Binding>, y: Binding, e: Binding, current: string)
    requires AllBy(c, e.at) && AllBefore(u, e.at) && y.at == e.at
    ensures Expected(c + [e] + [y], u, current, Some(e.at)) == y.target
  {
    LatestEndsLast(c + [e], y, u);
    hide ByTime, Expected;
    ExpectedLast(c + [e] + [y], u, ByTime(c + [e] + u), y, current, e.at);
  }

  lemma Swap(s: seq<Binding>, y: Binding, e: Binding)
    ensures multiset(s + [y] + [e]) == multiset(s + [e] + [y])
  {
  }

  lemma Misread(initial: string, run: seq<Applied>, c: seq<Binding>, u: seq<Binding>, t: int)
    requires SameTables(Changes(run), Upgrades(run), c, u)
    requires Expected(c, u, Current(initial, run), Some(t)) != Replay(initial, run, t)
    ensures !Faithful(initial, run)
  {
    hide Expected, SameTables, Changes, Upgrades, Replay;
  }

  /** Two events of one table at one instant are misread if the table is read the other way round. */
  lemma SwappedReading(initial: string, before: seq<Applied>, y: Applied, e: Applied)
    requires Lawful(initial, before + [y] + [e]) && Unambiguous(before + [y])
    requires y.binding.at == e.binding.at && y.isUpgrade == e.isUpgrade && y.binding.target != e.binding.target
    ensures !Faithful(initial, before + [y] + [e])
  {
    var run, c, u, at := before + [y] + [e], Changes(before), Upgrades(before), e.binding.at;
    OneMoreEvent(initial, before, y);
    OneMoreEvent(initial, before + [y], e);
    TablesBy(initial, before, at);
    TablesBefore(initial, before, y);
    Halves(c, u, at);
    hide Lawful, Unambiguous, Changes, Upgrades, Expected, Replay, Faithful, AllBy, AllBefore;
    Swap(if y.isUpgrade then u else c, y.binding, e.binding);
    if y.isUpgrade {
      UpgradesSwapped(c, u, y.binding, e.binding, Current(initial, run));
      Misread(initial, run, c, u + [e.binding] + [y.binding], at);
    } else {
      ChangesSwapped(c, u, y.binding, e.binding, Current(initial, run));
      Misread(initial, run, c + [e.binding] + [y.binding], u, at);
    }
  }

  /** The first event that cannot be told apart is misread. */
  lemma AmbiguityMisleads(initial: string, run: seq<Applied>, e: Applied)
    requires Lawful(initial, run + [e]) && Unambiguous(run) && !TellsApart(run, e) && e.binding.target != e.binding.source
    ensures !Faithful(initial, run + [e])
  {
    var before, y := run[..|run| - 1], Last(run);
    assert run == before + [y];
    OneMoreEvent(initial, run, e);
    OneMoreEvent(initial, before, y);
    assert y.binding.target == e.binding.source;
    hide Lawful, Expected, Unambiguous, Changes, Upgrades, Replay, Faithful;
    if y.isUpgrade == e.isUpgrade {
      SwappedReading(initial, before, y, e);
    } else {
      var at := e.binding.at;
      assert Overridden(run, e) && Upgrades(run)[|Upgrades(run)| - 1] == y.binding;
      EventTakesEffectIff(initial, run, e, at);
      if Faithful(initial, run + [e]) { AsWritten(initial, run + [e], at); }
    }
  }

  ghost predicate AlwaysFaithful(initial: string, run: seq<Applied>)
    decreases |run|
  {
    Faithful(initial, run) && (run != [] ==> AlwaysFaithful(initial, run[..|run| - 1]))
  }

  /** The exact condition: at every point of a history whose events change the price, and in whatever order its
      tables are read, prices are faithful exactly if two events of one instant are always a change followed
      by an upgrade. */
  lemma {:induction false} FaithfulIff(initial: string, run: seq<Applied>)
    requires Lawful(initial, run) && ChangesThePrice(run)
    ensures AlwaysFaithful(initial, run) <==> Unambiguous(run)
    decreases |run|
  {
    if run == [] {
      SortedScanIsReplay(initial, run);
    } else {
      var rest, e := run[..|run| - 1], Last(run);
      assert run == rest + [e];
      FaithfulIff(initial, rest);
      hide Faithful, Fits;
      if Unambiguous(run) { SortedScanIsReplay(initial, run); }
      else if Unambiguous(rest) { AmbiguityMisleads(initial, rest, e); }
    }
  }

  lemma NoEvents(initial: string)
    ensures Changes([]) == [] && Upgrades([]) == [] && Lawful(initial, [])
  {
  }

  /** An upgrade and then a change at the same instant. */
  function Tie(a: string, b: string, c: string, at: int): seq<Applied> {
    [Applied(Binding(at, a, b), true)] + [Applied(Binding(at, b, c), false)]
  }

  lemma TieIsLawful(a: string, b: string, c: string, at: int)
    ensures Lawful(a, Tie(a, b, c, at)) && Replay(a, Tie(a, b, c, at), at) == c
    ensures Changes(Tie(a, b, c, at)) == [Binding(at, b, c)] && Upgrades(Tie(a, b, c, at)) == [Binding(at, a, b)]
  {
    hide Lawful, Changes, Upgrades, Bindings, Unambiguous, Replay;
    var upgrade, change := Applied(Binding(at, a, b), true), Applied(Binding(at, b, c), false);
    NoEvents(a);
    OneMoreEvent(a, [], upgrade);
    assert [] + [upgrade] == [upgrade];
    OneMoreEvent(a, [upgrade], change);
  }

  /** Such histories are lawful and misread: the upgrade's price is expected, though the change came last. */
  lemma TieFavoursTheUpgrade(a: string, b: string, c: string, at: int)
    ensures var run := Tie(a, b, c, at);
            && Lawful(a, run) && Replay(a, run, at) == c
            && Expected(Changes(run), Upgrades(run), c, Some(at)) == b
  {
    hide Lawful, Changes, Upgrades, Replay, ByTime, Expected, Tie;
    var upgrade, change := Binding(at, a, b), Binding(at, b, c);
    TieIsLawful(a, b, c, at);
    LastStaysLast([change], upgrade);
    ExpectedLast([change], [upgrade], ByTime([change]), upgrade, c, at);
  }
}
