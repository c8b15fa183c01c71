/** Paid claim reviews: admission under a daily budget, and worker ticks that make one provider call each.

    A tick is three transactions around the call, and any number of ticks run at once. A tick keeps only
    what it has read; its second transaction does not check that it still holds the lease. */
module ClaimReview {
  import opened Prelude

  const LEASE := 180
  const REVIEW_LIFETIME := 7_200
  const DAY_SECONDS := 86_400

  function Day(t: int): int { t / DAY_SECONDS }

  datatype Outcome = Unconfirmed | Accepted | Invalid

  /** A review names its cases in order and the millionths of a dollar reserved for them; admission order
      identifies it. */
  datatype Review = Review(active: bool, token: Option<nat>, leaseUntil: Option<int>, createdAt: int, cases: seq<nat>, reserved: nat)

  datatype Key = Key(review: nat, item: nat)

  datatype Request = Request(createdAt: int, outcome: Outcome)

  /** How far a tick has got: it holds a lease, has saved a request, or has made its call. */
  datatype Tick =
    | Leased(review: nat, now: int)
    | Submitted(key: Key, last: bool)
    | Called(key: Key, last: bool)

  datatype Call = Call(key: Key, at: int)

  /** What has been reserved on a day, and what may be. */
  datatype Budget = Budget(day: int, calls: nat, money: nat)

  datatype Limits = Limits(calls: nat, money: nat)

  datatype State = State(reviews: seq<Review>, requests: map<Key, Request>, ticks: map<nat, Tick>, calls: seq<Call>, budget: Budget)

  datatype Event =
    | Start(now: int, cases: seq<nat>, money: nat, limits: Limits, refused: bool)
    | Claim(token: nat, review: nat, now: int)
    | Decide(token: nat, stop: bool)
    | CallProvider(token: nat, at: int)
    | Record(token: nat, outcome: Outcome, stop: bool, now: int)
    | Die(token: nat)

  const EMPTY := State([], map[], map[], [], Budget(0, 0, 0))

  predicate AnyActive(reviews: seq<Review>) {
    exists r :: 0 <= r < |reviews| && reviews[r].active
  }

  function Finish(s: State, r: nat): State
    requires r < |s.reviews|
  {
    s.(reviews := s.reviews[r := s.reviews[r].(active := false, token := None)])
  }

  predicate AnyOpen(requests: map<Key, Request>, r: nat) {
    exists k <- requests.Keys :: k.review == r && !requests[k].outcome.Accepted?
  }

  function Previous(requests: map<Key, Request>, r: nat): set<Key> { set k | k in requests && k.review == r }

  /** The first case without a request. */
  function NextCase(requests: map<Key, Request>, r: nat, cases: seq<nat>): (c: Option<nat>)
    ensures c.Some? ==> c.value in cases && Key(r, c.value) !in requests
    ensures c.Some? ==> exists i :: 0 <= i < |cases| && cases[i] == c.value && forall j :: 0 <= j < i ==> Key(r, cases[j]) in requests
    ensures c.None? ==> forall x <- cases :: Key(r, x) in requests
  {
    if cases == [] then None
    else if Key(r, cases[0]) !in requests then Some(cases[0])
    else NextCase(requests, r, cases[1..])
  }

  /** The budget as an admission on the given day finds it. */
  function BudgetOn(b: Budget, day: int): Budget { if b.day == day then b else Budget(day, 0, 0) }

  predicate Stale(rv: Review, now: int) { rv.createdAt + REVIEW_LIFETIME < now || Day(rv.createdAt) != Day(now) }

  predicate Admits(s: State, e: Event) {
    && e.Start? && !e.refused && Distinct(e.cases) && !AnyActive(s.reviews)
    && var b := BudgetOn(s.budget, Day(e.now));
       b.money + e.money <= e.limits.money && b.calls + |e.cases| <= e.limits.calls
  }

  /** The lease of an active review is free or over, so the event takes it. */
  predicate Takes(s: State, e: Event) {
    && e.Claim? && e.token !in s.ticks && e.review < |s.reviews| && s.reviews[e.review].active
    && (s.reviews[e.review].leaseUntil.Some? ==> s.reviews[e.review].leaseUntil.value <= e.now)
  }

  function Step(s: State, e: Event): State {
    match e
    case Start(now, cases, money, limits, refused) =>
      var b := BudgetOn(s.budget, Day(now));
      if !Admits(s, e) then s
      else s.(reviews := s.reviews + [Review(true, None, None, now, cases, money)],
              budget := Budget(b.day, b.calls + |cases|, b.money + money))
    case Claim(token, r, now) =>
      if !Takes(s, e) then s
      else s.(reviews := s.reviews[r := s.reviews[r].(token := Some(token), leaseUntil := Some(now + LEASE))],
              ticks := s.ticks[token := Leased(r, now)])
    case Decide(token, stop) => if token in s.ticks && s.ticks[token].Leased? then Decided(s, token, stop) else s
    case CallProvider(token, at) =>
      if token !in s.ticks || !s.ticks[token].Submitted? then s
      else s.(ticks := s.ticks[token := Called(s.ticks[token].key, s.ticks[token].last)],
              calls := s.calls + [Call(s.ticks[token].key, at)])
    case Record(token, outcome, stop, now) =>
      if token in s.ticks && s.ticks[token].Called? then Recorded(s, token, outcome, stop, now) else s
    case Die(token) => s.(ticks := s.ticks - {token})
  }

  /** Second transaction of a tick: finish the review or save the request that permits one call. */
  function Decided(s: State, token: nat, stop: bool): State
    requires token in s.ticks && s.ticks[token].Leased?
  {
    var r, now := s.ticks[token].review, s.ticks[token].now;
    var gone := s.(ticks := s.ticks - {token});
    if |s.reviews| <= r then gone
    else
      var next := NextCase(s.requests, r, s.reviews[r].cases);
      if AnyOpen(s.requests, r) || stop || Stale(s.reviews[r], now) || next.None? then Finish(gone, r)
      else
        var requests := s.requests[Key(r, next.value) := Request(now, Unconfirmed)];
        var last := |Previous(s.requests, r)| + 1 == |s.reviews[r].cases|;
        s.(requests := requests, ticks := s.ticks[token := Submitted(Key(r, next.value), last)])
  }

  function WithOutcome(s: State, token: nat, k: Key, outcome: Outcome, now: int): State
    requires k in s.requests && k.review < |s.reviews|
  {
    s.(ticks := s.ticks - {token}, requests := s.requests[k := s.requests[k].(outcome := outcome)],
       reviews := s.reviews[k.review := s.reviews[k.review].(leaseUntil := Some(now), token := None)])
  }

  /** Third transaction: only the holder of the lease token records the response. */
  function Recorded(s: State, token: nat, outcome: Outcome, stop: bool, now: int): State
    requires token in s.ticks && s.ticks[token].Called?
  {
    var k := s.ticks[token].key;
    var gone := s.(ticks := s.ticks - {token});
    if |s.reviews| <= k.review || k !in s.requests
       || s.reviews[k.review].token != Some(token) || !s.reviews[k.review].active then gone
    else
      var saved := WithOutcome(s, token, k, outcome, now);
      if !outcome.Accepted? || stop || s.ticks[token].last then Finish(saved, k.review) else saved
  }

  function Play(s: State, es: seq<Event>): State
    decreases |es|
  {
    if es == [] then s else Play(Step(s, es[0]), es[1..])
  }

  // ---- What every history keeps ----

  /** The request a tick holds, if it has one. */
  ghost predicate Holds(s: State, token: nat, k: Key) {
    token in s.ticks && !s.ticks[token].Leased? && s.ticks[token].key == k
  }

  ghost predicate Requested(s: State) {
    forall k <- s.requests.Keys ::
      && k.review < |s.reviews| && k.item in s.reviews[k.review].cases
      && Day(s.requests[k].createdAt) == Day(s.reviews[k.review].createdAt)
  }

  ghost predicate OneOpen(s: State) {
    forall j <- s.requests.Keys, k <- s.requests.Keys ::
      j.review == k.review && !s.requests[j].outcome.Accepted? && !s.requests[k].outcome.Accepted? ==> j == k
  }

  ghost predicate Held(s: State) {
    && (forall t <- s.ticks.Keys :: !s.ticks[t].Leased? ==>
          s.ticks[t].key in s.requests && s.requests[s.ticks[t].key].outcome.Unconfirmed?)
    && (forall t <- s.ticks.Keys, u <- s.ticks.Keys, k :: Holds(s, t, k) && Holds(s, u, k) ==> t == u)
  }

  ghost predicate CalledOnce(s: State) {
    && (forall i :: 0 <= i < |s.calls| ==> s.calls[i].key in s.requests)
    && (forall i, j :: 0 <= i < j < |s.calls| ==> s.calls[i].key != s.calls[j].key)
    && (forall t <- s.ticks.Keys, i :: 0 <= i < |s.calls| && s.ticks[t].Submitted? ==> s.calls[i].key != s.ticks[t].key)
  }

  ghost predicate OneActive(s: State) {
    && (forall i, j :: 0 <= i < j < |s.reviews| ==> !(s.reviews[i].active && s.reviews[j].active))
    && (forall i :: 0 <= i < |s.reviews| ==> Distinct(s.reviews[i].cases))
  }

  ghost predicate Inv(s: State) {
    Requested(s) && OneOpen(s) && Held(s) && CalledOnce(s) && OneActive(s)
  }

  lemma DropKeepsInv(s: State, token: nat)
    requires Inv(s)
    ensures Inv(s.(ticks := s.ticks - {token}))
  {
    var t := s.(ticks := s.ticks - {token});
    forall u <- t.ticks.Keys, k | Holds(t, u, k) ensures Holds(s, u, k) {}
  }

  lemma FinishKeepsInv(s: State, r: nat)
    requires Inv(s) && r < |s.reviews|
    ensures Inv(Finish(s, r))
  {
    var t := Finish(s, r);
    forall u <- t.ticks.Keys, k | Holds(t, u, k) ensures Holds(s, u, k) {}
  }

  /** A tick that saves a request is the only one to hold it, and nobody has called for it yet. */
  lemma SubmitKeepsInv(s: State, token: nat, k: Key, now: int, last: bool)
    requires Inv(s) && token in s.ticks && s.ticks[token].Leased? && k !in s.requests && !AnyOpen(s.requests, k.review)
    requires k.review < |s.reviews| && k.item in s.reviews[k.review].cases
    requires Day(now) == Day(s.reviews[k.review].createdAt)
    ensures Inv(s.(requests := s.requests[k := Request(now, Unconfirmed)], ticks := s.ticks[token := Submitted(k, last)]))
  {
    var t := s.(requests := s.requests[k := Request(now, Unconfirmed)], ticks := s.ticks[token := Submitted(k, last)]);
    assert Held(t) by {
      forall u <- t.ticks.Keys, j | Holds(t, u, j) ensures if u == token then j == k else Holds(s, u, j) && j != k {}
    }
    assert CalledOnce(t);
    assert Requested(t);
    assert OneOpen(t);
  }

  lemma DecideKeepsInv(s: State, token: nat, stop: bool)
    requires Inv(s) && token in s.ticks && s.ticks[token].Leased?
    ensures Inv(Decided(s, token, stop))
  {
    var r, now := s.ticks[token].review, s.ticks[token].now;
    DropKeepsInv(s, token);
    hide Inv;
    if r < |s.reviews| {
      var next := NextCase(s.requests, r, s.reviews[r].cases);
      if AnyOpen(s.requests, r) || stop || Stale(s.reviews[r], now) || next.None? {
        FinishKeepsInv(s.(ticks := s.ticks - {token}), r);
      } else {
        SubmitKeepsInv(s, token, Key(r, next.value), now, |Previous(s.requests, r)| + 1 == |s.reviews[r].cases|);
      }
    }
  }

  lemma OutcomeKeepsHeld(s: State, token: nat, outcome: Outcome, now: int)
    requires Held(s) && token in s.ticks && s.ticks[token].Called? && s.ticks[token].key.review < |s.reviews|
    ensures Held(WithOutcome(s, token, s.ticks[token].key, outcome, now))
  {
    var k := s.ticks[token].key;
    var t := WithOutcome(s, token, k, outcome, now);
    assert Holds(s, token, k);
    forall u <- t.ticks.Keys, j | Holds(t, u, j) ensures Holds(s, u, j) && j != k {}
    forall u <- t.ticks.Keys | !t.ticks[u].Leased? ensures t.ticks[u].key != k { assert Holds(t, u, t.ticks[u].key); }
  }

  /** An outcome is written only by the tick that holds the request, which leaves with it. */
  lemma OutcomeKeepsInv(s: State, token: nat, outcome: Outcome, now: int)
    requires Inv(s) && token in s.ticks && s.ticks[token].Called? && s.ticks[token].key.review < |s.reviews|
    ensures Inv(WithOutcome(s, token, s.ticks[token].key, outcome, now))
  {
    OutcomeKeepsHeld(s, token, outcome, now);
    assert !s.requests[s.ticks[token].key].outcome.Accepted?;
    OutcomeKeepsCalls(s, token, outcome, now);
    hide Held, CalledOnce, Day, Distinct;
    var t := WithOutcome(s, token, s.ticks[token].key, outcome, now);
    assert OneOpen(t);
    assert Requested(t);
  }

  lemma OutcomeKeepsCalls(s: State, token: nat, outcome: Outcome, now: int)
    requires CalledOnce(s) && token in s.ticks && s.ticks[token].Called?
    requires s.ticks[token].key in s.requests && s.ticks[token].key.review < |s.reviews|
    ensures CalledOnce(WithOutcome(s, token, s.ticks[token].key, outcome, now))
  {
  }

  lemma RecordKeepsInv(s: State, token: nat, outcome: Outcome, stop: bool, now: int)
    requires Inv(s) && token in s.ticks && s.ticks[token].Called?
    ensures Inv(Recorded(s, token, outcome, stop, now))
  {
    var k := s.ticks[token].key;
    DropKeepsInv(s, token);
    if k.review < |s.reviews| {
      OutcomeKeepsInv(s, token, outcome, now);
      hide Inv;
      FinishKeepsInv(WithOutcome(s, token, k, outcome, now), k.review);
    }
  }

  lemma CallKeepsInv(s: State, token: nat, at: int)
    requires Inv(s) && token in s.ticks && s.ticks[token].Submitted?
    ensures Inv(Step(s, CallProvider(token, at)))
  {
    var t := Step(s, CallProvider(token, at));
    assert Holds(s, token, s.ticks[token].key);
    forall u <- t.ticks.Keys, k | Holds(t, u, k) ensures Holds(s, u, k) {}
    forall u <- t.ticks.Keys | t.ticks[u].Submitted? ensures t.ticks[u].key != s.ticks[token].key {
      assert Holds(s, u, t.ticks[u].key);
    }
  }

  lemma StartKeepsInv(s: State, e: Event)
    requires Inv(s) && e.Start?
    ensures Inv(Step(s, e))
  {
    var t := Step(s, e);
    assert forall u, k :: Holds(t, u, k) <==> Holds(s, u, k);
    hide Day;
    assert Requested(t);
  }

  lemma ClaimKeepsInv(s: State, e: Event)
    requires Inv(s) && e.Claim?
    ensures Inv(Step(s, e))
  {
    var t := Step(s, e);
    forall u <- t.ticks.Keys, k | Holds(t, u, k) ensures Holds(s, u, k) {}
    hide Day;
    assert Held(t);
    assert CalledOnce(t);
  }

  lemma StepKeepsInv(s: State, e: Event)
    requires Inv(s)
    ensures Inv(Step(s, e))
  {
    hide Decided, Recorded, Inv;
    match e {
      case Start(_, _, _, _, _) => StartKeepsInv(s, e);
      case Claim(_, _, _) => ClaimKeepsInv(s, e);
      case Decide(token, stop) => if token in s.ticks && s.ticks[token].Leased? { DecideKeepsInv(s, token, stop); }
      case CallProvider(token, at) => if token in s.ticks && s.ticks[token].Submitted? { CallKeepsInv(s, token, at); }
      case Record(token, outcome, stop, now) =>
        if token in s.ticks && s.ticks[token].Called? { RecordKeepsInv(s, token, outcome, stop, now); }
      case Die(token) => DropKeepsInv(s, token);
    }
  }

  lemma {:induction false} HistoryKeepsInv(s: State, es: seq<Event>)
    requires Inv(s)
    ensures Inv(Play(s, es))
    decreases |es|
  {
    if es != [] {
      StepKeepsInv(s, es[0]);
      HistoryKeepsInv(Step(s, es[0]), es[1..]);
    }
  }

  /** No case of any review is ever paid for twice, under any crashes, expired leases and late responses. */
  lemma OneCallPerCase(es: seq<Event>, i: nat, j: nat)
    requires var calls := Play(EMPTY, es).calls; i < |calls| && j < |calls| && calls[i].key == calls[j].key
    ensures i == j
  {
    HistoryKeepsInv(EMPTY, es);
  }

  /** A request is saved only while every earlier one of its review was accepted. */
  lemma RequestsFollowAcceptance(s: State, e: Event, k: Key)
    requires k in Step(s, e).requests && k !in s.requests
    ensures !AnyOpen(s.requests, k.review)
  {
  }

  /** Only the current holder of the lease token, on an active review, changes an outcome. */
  lemma OnlyTheHolderRecords(s: State, e: Event, k: Key)
    requires Inv(s) && k in s.requests && Step(s, e).requests[k] != s.requests[k]
    ensures e.Record? && k.review < |s.reviews|
    ensures s.reviews[k.review].active && s.reviews[k.review].token == Some(e.token) && Holds(s, e.token, k)
  {
  }

  /** A request that is uncertain or invalid and whose tick is gone. */
  ghost predicate Abandoned(s: State, k: Key) {
    k in s.requests && !s.requests[k].outcome.Accepted? && forall t <- s.ticks.Keys :: !Holds(s, t, k)
  }

  lemma NoCallForAbandoned(s: State, e: Event, k: Key)
    requires Inv(s) && Abandoned(s, k)
    ensures forall c <- Step(s, e).calls :: c in s.calls || c.key.review != k.review
  {
    if e.CallProvider? && e.token in s.ticks && s.ticks[e.token].Submitted? {
      assert Holds(s, e.token, s.ticks[e.token].key);
    }
  }

  lemma NoRequestForAbandoned(s: State, e: Event, k: Key)
    requires Abandoned(s, k)
    ensures Previous(Step(s, e).requests, k.review) == Previous(s.requests, k.review)
  {
    assert AnyOpen(s.requests, k.review);
    assert forall j <- s.requests.Keys :: j in Step(s, e).requests;
    forall j | j in Step(s, e).requests && j !in s.requests ensures j.review != k.review {
      RequestsFollowAcceptance(s, e, j);
    }
  }

  lemma StaysAbandoned(s: State, e: Event, k: Key)
    requires Inv(s) && Abandoned(s, k)
    ensures Abandoned(Step(s, e), k)
  {
    var t := Step(s, e);
    hide Inv, NextCase, Day;
    if t.requests[k] != s.requests[k] { OnlyTheHolderRecords(s, e, k); assert false; }
    forall u <- t.ticks.Keys ensures !Holds(t, u, k) { assert !(u in s.ticks && Holds(s, u, k)); }
  }

  /** An uncertain or invalid call stops its review for good: no further request, no further call. */
  lemma {:induction false} UncertainCallStopsItsReview(s: State, es: seq<Event>, k: Key)
    requires Inv(s) && Abandoned(s, k)
    ensures var t := Play(s, es);
            && Abandoned(t, k)
            && Previous(t.requests, k.review) == Previous(s.requests, k.review)
            && (forall c <- t.calls :: c in s.calls || c.key.review != k.review)
    decreases |es|
  {
    if es != [] {
      StepKeepsInv(s, es[0]);
      NoCallForAbandoned(s, es[0], k);
      NoRequestForAbandoned(s, es[0], k);
      StaysAbandoned(s, es[0], k);
      UncertainCallStopsItsReview(Step(s, es[0]), es[1..], k);
    }
  }

  /** What the token holder of an active review reports is what is saved, and anything but an accepted response
      ends the review. */
  lemma ResponseIsRecorded(s: State, token: nat, outcome: Outcome, stop: bool, now: int)
    requires token in s.ticks && s.ticks[token].Called?
    requires var k := s.ticks[token].key;
             k in s.requests && k.review < |s.reviews| && s.reviews[k.review].active && s.reviews[k.review].token == Some(token)
    ensures var k, t := s.ticks[token].key, Step(s, Record(token, outcome, stop, now));
            && k in t.requests && t.requests[k].outcome == outcome && token !in t.ticks
            && |t.reviews| == |s.reviews| && (outcome != Accepted ==> !t.reviews[k.review].active)
  {
  }

  /** So after a response that is missing or invalid its review gets no further request and no further call, in
      whatever follows. */
  lemma BadResponseStopsItsReview(s: State, token: nat, outcome: Outcome, stop: bool, now: int, es: seq<Event>)
    requires Inv(s) && token in s.ticks && s.ticks[token].Called? && outcome != Accepted
    requires var r := s.ticks[token].key.review; r < |s.reviews| && s.reviews[r].active && s.reviews[r].token == Some(token)
    ensures var k, t := s.ticks[token].key, Play(Step(s, Record(token, outcome, stop, now)), es);
            && (forall j <- t.requests.Keys :: j.review == k.review ==> j in s.requests)
            && (forall c <- t.calls :: c.key.review == k.review ==> c in s.calls)
  {
    var k, e := s.ticks[token].key, Record(token, outcome, stop, now);
    assert Holds(s, token, k);
    ResponseIsRecorded(s, token, outcome, stop, now);
    StepKeepsInv(s, e);
    var t := Step(s, e);
    assert t.calls == s.calls && t.requests.Keys == s.requests.Keys;
    forall u <- t.ticks.Keys ensures !Holds(t, u, k) { assert Holds(t, u, k) ==> Holds(s, u, k); }
    UncertainCallStopsItsReview(t, es, k);
    forall j <- Play(t, es).requests.Keys | j.review == k.review ensures j in s.requests {
      assert j in Previous(Play(t, es).requests, k.review);
    }
  }

  // ---- Budget ----

  /** Calls reserved by the reviews admitted on a day. */
  function ReservedOn(reviews: seq<Review>, day: int): nat
    decreases |reviews|
  {
    if reviews == [] then 0
    else
      var last := reviews[|reviews| - 1];
      ReservedOn(reviews[..|reviews| - 1], day) + (if Day(last.createdAt) == day then |last.cases| else 0)
  }

  /** Money reserved by the reviews admitted on a day. */
  function MoneyOn(reviews: seq<Review>, day: int): nat
    decreases |reviews|
  {
    if reviews == [] then 0
    else
      var last := reviews[|reviews| - 1];
      MoneyOn(reviews[..|reviews| - 1], day) + (if Day(last.createdAt) == day then last.reserved else 0)
  }

  ghost function KeysOf(r: nat, cases: seq<nat>): set<Key> { set c | c in cases :: Key(r, c) }

  lemma {:induction false} FewKeys(r: nat, cases: seq<nat>)
    ensures |KeysOf(r, cases)| <= |cases|
  {
    if cases != [] {
      FewKeys(r, cases[1..]);
      assert KeysOf(r, cases) == {Key(r, cases[0])} + KeysOf(r, cases[1..]);
    }
  }

  /** Keys of one review with items among its cases are no more than its cases. */
  lemma FewOfReview(keys: set<Key>, r: nat, cases: seq<nat>)
    requires forall k <- keys :: k.review == r && k.item in cases
    ensures |keys| <= |cases|
  {
    FewKeys(r, cases);
    var all := KeysOf(r, cases);
    forall k <- keys ensures k in all { assert k == Key(r, k.item); }
    assert all == keys + (all - keys);
  }

  ghost function OfReview(keys: set<Key>, r: nat): set<Key> { set k | k in keys && k.review == r }

  lemma SplitOff(keys: set<Key>, r: nat)
    ensures |keys| == |keys - OfReview(keys, r)| + |OfReview(keys, r)|
  {
    assert keys == (keys - OfReview(keys, r)) + OfReview(keys, r);
  }

  /** A set of keys that all belong to reviews of one day is no larger than that day's reservation. */
  lemma {:induction false} WithinReservation(reviews: seq<Review>, day: int, keys: set<Key>)
    requires forall k <- keys :: k.review < |reviews| && k.item in reviews[k.review].cases && Day(reviews[k.review].createdAt) == day
    ensures |keys| <= ReservedOn(reviews, day)
    decreases |reviews|
  {
    hide Day;
    if reviews == [] {
      assert keys == {};
    } else {
      var n := |reviews| - 1;
      SplitOff(keys, n);
      WithinReservation(reviews[..n], day, keys - OfReview(keys, n));
      if Day(reviews[n].createdAt) == day {
        FewOfReview(OfReview(keys, n), n, reviews[n].cases);
      } else {
        assert OfReview(keys, n) == {};
      }
    }
  }

  /** Calls whose request was charged to a day. */
  function ChargedOn(requests: map<Key, Request>, calls: seq<Call>, day: int): nat
    requires forall c <- calls :: c.key in requests
    decreases |calls|
  {
    if calls == [] then 0
    else
      var last := calls[|calls| - 1];
      ChargedOn(requests, calls[..|calls| - 1], day) + (if Day(requests[last.key].createdAt) == day then 1 else 0)
  }

  ghost function ChargedKeys(requests: map<Key, Request>, calls: seq<Call>, day: int): set<Key>
    requires forall c <- calls :: c.key in requests
  {
    set c | c in calls && Day(requests[c.key].createdAt) == day :: c.key
  }

  /** One more call adds its key, if it is charged to the day. */
  lemma OneMoreKey(requests: map<Key, Request>, rest: seq<Call>, last: Call, day: int)
    requires forall c <- rest + [last] :: c.key in requests
    requires last in rest + [last] && forall c <- rest :: c in rest + [last]
    ensures ChargedKeys(requests, rest + [last], day) ==
            ChargedKeys(requests, rest, day) + if Day(requests[last.key].createdAt) == day then {last.key} else {}
  {
    hide Day;
  }

  lemma {:induction false} ChargedWithin(requests: map<Key, Request>, calls: seq<Call>, day: int)
    requires forall c <- calls :: c.key in requests
    requires forall i, j :: 0 <= i < j < |calls| ==> calls[i].key != calls[j].key
    ensures ChargedOn(requests, calls, day) == |ChargedKeys(requests, calls, day)|
    decreases |calls|
  {
    hide Day;
    if calls != [] {
      var rest, last := calls[..|calls| - 1], calls[|calls| - 1];
      assert calls == rest + [last];
      ChargedWithin(requests, rest, day);
      OneMoreKey(requests, rest, last, day);
      assert last.key !in ChargedKeys(requests, rest, day);
    }
  }

  /** The calls charged to a day never exceed the calls reserved that day. */
  lemma CallsWithinReservation(es: seq<Event>, day: int)
    ensures var t := Play(EMPTY, es);
            && (forall c <- t.calls :: c.key in t.requests)
            && ChargedOn(t.requests, t.calls, day) <= ReservedOn(t.reviews, day)
  {
    HistoryKeepsInv(EMPTY, es);
    var t := Play(EMPTY, es);
    ChargedWithin(t.requests, t.calls, day);
    WithinReservation(t.reviews, day, ChargedKeys(t.requests, t.calls, day));
  }

  /** Admission reads the clock before it takes its lock; this says no admission was overtaken by one of
      a later day, and that all use the same limits. */
  ghost predicate InDayOrder(s: State, es: seq<Event>, limits: Limits)
    decreases |es|
  {
    es != [] ==>
      && (es[0].Start? ==> s.budget.day <= Day(es[0].now) && es[0].limits == limits)
      && InDayOrder(Step(s, es[0]), es[1..], limits)
  }

  ghost predicate WithinLimits(s: State, limits: Limits) {
    forall d :: ReservedOn(s.reviews, d) <= limits.calls && MoneyOn(s.reviews, d) <= limits.money
  }

  /** The counter holds what its day has reserved, no review is of a later day, and every day is within the
      limits. */
  ghost predicate Budgeted(s: State, limits: Limits) {
    && s.budget.calls == ReservedOn(s.reviews, s.budget.day) && s.budget.money == MoneyOn(s.reviews, s.budget.day)
    && (forall r <- s.reviews :: Day(r.createdAt) <= s.budget.day)
    && WithinLimits(s, limits)
  }

  lemma {:induction false} SameReservation(a: seq<Review>, b: seq<Review>, day: int)
    requires |a| == |b| && forall i :: 0 <= i < |a| ==> 
               a[i].createdAt == b[i].createdAt && a[i].cases == b[i].cases && a[i].reserved == b[i].reserved
    ensures ReservedOn(a, day) == ReservedOn(b, day) && MoneyOn(a, day) == MoneyOn(b, day)
    decreases |a|
  {
    if a != [] { SameReservation(a[..|a| - 1], b[..|b| - 1], day); }
  }

  lemma {:induction false} NothingReservedLater(reviews: seq<Review>, day: int)
    requires forall r <- reviews :: Day(r.createdAt) < day
    ensures ReservedOn(reviews, day) == 0 && MoneyOn(reviews, day) == 0
    decreases |reviews|
  {
    if reviews != [] { NothingReservedLater(reviews[..|reviews| - 1], day); }
  }

  lemma OneMoreReview(reviews: seq<Review>, last: Review, d: int)
    ensures ReservedOn(reviews + [last], d) == ReservedOn(reviews, d) + if Day(last.createdAt) == d then |last.cases| else 0
    ensures MoneyOn(reviews + [last], d) == MoneyOn(reviews, d) + if Day(last.createdAt) == d then last.reserved else 0
  {
    assert (reviews + [last])[..|reviews|] == reviews;
  }

  lemma AdmissionKeepsBudget(s: State, e: Event, limits: Limits)
    requires Budgeted(s, limits) && Admits(s, e) && s.budget.day <= Day(e.now) && e.limits == limits
    ensures Budgeted(Step(s, e), limits)
  {
    hide ReservedOn, MoneyOn, Day;
    var t := Step(s, e);
    var last := Review(true, None, None, e.now, e.cases, e.money);
    if s.budget.day < Day(e.now) { NothingReservedLater(s.reviews, Day(e.now)); }
    forall d
      ensures ReservedOn(t.reviews, d) == ReservedOn(s.reviews, d) + if d == Day(e.now) then |e.cases| else 0
      ensures MoneyOn(t.reviews, d) == MoneyOn(s.reviews, d) + if d == Day(e.now) then e.money else 0
    {
      OneMoreReview(s.reviews, last, d);
    }
  }

  /** An admission keeps the counter truthful exactly when it is not overtaken by one of a later day. */
  lemma AdmissionKeepsBudgetIff(s: State, e: Event, limits: Limits)
    requires Budgeted(s, limits) && Admits(s, e) && e.limits == limits
    requires exists r <- s.reviews :: Day(r.createdAt) == s.budget.day
    ensures Budgeted(Step(s, e), limits) <==> s.budget.day <= Day(e.now)
  {
    hide ReservedOn, MoneyOn, Day;
    if s.budget.day <= Day(e.now) {
      AdmissionKeepsBudget(s, e, limits);
    } else {
      var r :| r in s.reviews && Day(r.createdAt) == s.budget.day;
      assert r in Step(s, e).reviews;
    }
  }

  lemma OthersKeepBudget(s: State, e: Event, limits: Limits)
    requires Budgeted(s, limits) && !e.Start?
    ensures Budgeted(Step(s, e), limits)
  {
    var t := Step(s, e);
    assert t.budget == s.budget && |t.reviews| == |s.reviews|;
    assert forall i :: 0 <= i < |s.reviews| ==>
        t.reviews[i].createdAt == s.reviews[i].createdAt && t.reviews[i].cases == s.reviews[i].cases
        && t.reviews[i].reserved == s.reviews[i].reserved;
    forall d ensures ReservedOn(t.reviews, d) == ReservedOn(s.reviews, d) && MoneyOn(t.reviews, d) == MoneyOn(s.reviews, d) {
      SameReservation(t.reviews, s.reviews, d);
    }
  }

  /** When admissions take their lock in day order, no day's reservations pass the limits on calls and
      money. */
  lemma {:induction false} DailyLimitHolds(s: State, es: seq<Event>, limits: Limits)
    requires Budgeted(s, limits) && InDayOrder(s, es, limits)
    ensures Budgeted(Play(s, es), limits)
    decreases |es|
  {
    if es != [] {
      if Admits(s, es[0]) { AdmissionKeepsBudget(s, es[0], limits); }
      else if !es[0].Start? { OthersKeepBudget(s, es[0], limits); }
      hide Step, Budgeted, Admits;
      DailyLimitHolds(Step(s, es[0]), es[1..], limits);
    }
  }

  // ---- Where the recorded day and the real day differ ----

  function MadeOn(calls: seq<Call>, day: int): nat
    decreases |calls|
  {
    if calls == [] then 0
    else MadeOn(calls[..|calls| - 1], day) + (if Day(calls[|calls| - 1].at) == day then 1 else 0)
  }

  /** Every call is made on the day its tick started. */
  ghost predicate Punctual(requests: map<Key, Request>, calls: seq<Call>) {
    forall c <- calls :: c.key in requests && Day(c.at) == Day(requests[c.key].createdAt)
  }

  lemma {:induction false} MadeWhenCharged(requests: map<Key, Request>, calls: seq<Call>, day: int)
    requires Punctual(requests, calls)
    ensures MadeOn(calls, day) == ChargedOn(requests, calls, day)
    decreases |calls|
  {
    if calls != [] { MadeWhenCharged(requests, calls[..|calls| - 1], day); }
  }

  lemma {:induction false} PlayOn(s: State, es: seq<Event>, fs: seq<Event>)
    ensures Play(s, es + fs) == Play(Play(s, es), fs)
    decreases |es|
  {
    if es == [] {
      assert es + fs == fs;
    } else {
      assert (es + fs)[1..] == es[1..] + fs;
      PlayOn(Step(s, es[0]), es[1..], fs);
    }
  }

  lemma Happened(s: State, es: seq<Event>, e: Event) returns (more: seq<Event>)
    ensures more == es + [e] && Play(s, more) == Step(Play(s, es), e)
  {
    more := es + [e];
    PlayOn(s, es, [e]);
    assert [e][1..] == [];
  }

  /** Every call is made within what its day has reserved. */
  ghost predicate StaysReserved(es: seq<Event>) {
    forall day :: MadeOn(Play(EMPTY, es).calls, day) <= ReservedOn(Play(EMPTY, es).reviews, day)
  }

  /** If ticks do not run past midnight, the calls made on a day stay within that day's reservation. */
  lemma PunctualCallsAreReserved(es: seq<Event>)
    requires var t := Play(EMPTY, es); Punctual(t.requests, t.calls)
    ensures StaysReserved(es)
  {
    var t := Play(EMPTY, es);
    forall day ensures MadeOn(t.calls, day) <= ReservedOn(t.reviews, day) {
      CallsWithinReservation(es, day);
      MadeWhenCharged(t.requests, t.calls, day);
    }
  }

  /** A tick that starts on one day and calls on another calls on a day that reserved nothing. */
  lemma CallOnAnotherDay(start: int, at: int) returns (es: seq<Event>)
    requires Day(start) != Day(at)
    ensures var t := Play(EMPTY, es);
            && t.calls == [Call(Key(0, 0), at)] && t.requests == map[Key(0, 0) := Request(start, Unconfirmed)]
            && MadeOn(t.calls, Day(at)) == 1 && ReservedOn(t.reviews, Day(at)) == 0
  {
    es := Happened(EMPTY, [], Start(start, [0], 5, Limits(1, 5), false));
    es := Happened(EMPTY, es, Claim(7, 0, start));
    var leased := Play(EMPTY, es);
    assert leased == State([Review(true, Some(7), Some(start + LEASE), start, [0], 5)], map[],
                           map[7 := Leased(0, start)], [], leased.budget);
    es := Happened(EMPTY, es, Decide(7, false));
    es := Happened(EMPTY, es, CallProvider(7, at));
    var t := Play(EMPTY, es);
    assert t.calls == [Call(Key(0, 0), at)] && t.reviews == leased.reviews;
    OneMoreCall([], t.calls[0], Day(at));
    OneMoreReview([], t.reviews[0], Day(at));
    assert [] + [t.calls[0]] == t.calls && [] + [t.reviews[0]] == t.reviews;
  }

  lemma OneMoreCall(calls: seq<Call>, last: Call, day: int)
    ensures MadeOn(calls + [last], day) == MadeOn(calls, day) + if Day(last.at) == day then 1 else 0
  {
    assert (calls + [last])[..|calls|] == calls;
  }

  /** Every call is made at a moment the rule allows for a tick that started when this one did. */
  ghost predicate Follows(es: seq<Event>, allowed: (int, int) -> bool) {
    var t := Play(EMPTY, es);
    forall c <- t.calls :: c.key in t.requests && allowed(t.requests[c.key].createdAt, c.at)
  }

  /** Which ticks may call when: the calls made on a day are within its reservation in every history that
      follows a rule exactly if the rule lets a tick call only on the day it started. */
  lemma CallsStayReservedIff(allowed: (int, int) -> bool)
    ensures (forall es :: Follows(es, allowed) ==> StaysReserved(es))
            <==> (forall start, at :: allowed(start, at) ==> Day(start) == Day(at))
  {
    if forall start, at :: allowed(start, at) ==> Day(start) == Day(at) {
      forall es | Follows(es, allowed) ensures StaysReserved(es) { PunctualCallsAreReserved(es); }
    } else {
      var start, at :| allowed(start, at) && Day(start) != Day(at);
      var es := CallOnAnotherDay(start, at);
      var t := Play(EMPTY, es);
      assert Follows(es, allowed);
      assert MadeOn(t.calls, Day(at)) > ReservedOn(t.reviews, Day(at));
    }
  }

  // ---- What an overtaken admission does ----

  lemma {:induction false} UnusedToken(tokens: set<nat>) returns (token: nat)
    ensures token !in tokens && forall t <- tokens :: t < token
    decreases |tokens|
  {
    if tokens == {} { return 0; }
    var t :| t in tokens;
    var rest := tokens - {t};
    assert tokens == rest + {t};
    token := UnusedToken(rest);
    if token <= t { token := t + 1; }
  }

  /** The active review, if its lease is free, can be claimed and stopped before it calls. */
  lemma ClaimAndStop(s: State, r: nat, now: int) returns (es: seq<Event>, t: State)
    requires r < |s.reviews| && s.reviews[r].active && s.reviews[r].leaseUntil.None?
    ensures |es| == 2 && !es[0].Start? && !es[1].Start? && t == Play(s, es)
    ensures t.budget == s.budget
    ensures t.reviews == s.reviews[r := s.reviews[r].(active := false, token := None, leaseUntil := Some(now + LEASE))]
  {
    var token := UnusedToken(s.ticks.Keys);
    var claim, stop := Claim(token, r, now), Decide(token, true);
    es := Happened(s, [], claim);
    es := Happened(s, es, stop);
    t := Play(s, es);
  }

  /** An admission that read its clock before midnight and got its lock after a later day's admission
      resets the counter: that later day can then reserve its whole limit once more. */
  lemma OvertakenAdmissionForgets(s: State, e: Event, limits: Limits) returns (es: seq<Event>)
    requires Budgeted(s, limits) && Admits(s, e) && e.limits == limits && Day(e.now) < s.budget.day
    ensures InDayOrder(Step(s, e), es, limits)
    ensures var t := Play(Step(s, e), es);
            && ReservedOn(t.reviews, s.budget.day) == s.budget.calls + limits.calls
            && MoneyOn(t.reviews, s.budget.day) == s.budget.money + limits.money
  {
    var a, day := Step(s, e), s.budget.day;
    assert a.reviews == s.reviews + [Review(true, None, None, e.now, e.cases, e.money)];
    var stops, b := ClaimAndStop(a, |s.reviews|, e.now);
    var stopped := Review(false, None, Some(e.now + LEASE), e.now, e.cases, e.money);
    assert b.reviews == s.reviews + [stopped];
    var again := Start(day * DAY_SECONDS, seq(limits.calls, i => i), limits.money, limits, false);
    assert Admits(b, again);
    es := stops + [again];
    PlayOn(a, stops, [again]);
    assert [again][1..] == [];
    var t := Step(b, again);
    assert t.reviews == b.reviews + [Review(true, None, None, again.now, again.cases, limits.money)];
    OneMoreReview(s.reviews, stopped, day);
    OneMoreReview(b.reviews, Review(true, None, None, again.now, again.cases, limits.money), day);
    InOrderOnTheWay(a, stops, again, limits);
  }

  lemma InOrderOnTheWay(a: State, stops: seq<Event>, again: Event, limits: Limits)
    requires |stops| == 2 && !stops[0].Start? && !stops[1].Start?
    requires again.Start? && again.limits == limits && Play(a, stops).budget.day <= Day(again.now)
    ensures InDayOrder(a, stops + [again], limits)
  {
    var es, b, c := stops + [again], Step(a, stops[0]), Step(Step(a, stops[0]), stops[1]);
    assert es[1..] == [stops[1], again] && es[1..][1..] == [again] && [again][1..] == [];
    assert stops[1..] == [stops[1]] && stops[1..][1..] == [];
    hide Step;
    assert Play(a, stops) == Play(b, stops[1..]) == Play(c, []) == c;
    assert InDayOrder(c, [again], limits);
    assert InDayOrder(b, [stops[1], again], limits);
  }

  /** The day's limits survive an admission, whatever admissions follow in day order, exactly when it is not
      itself overtaken by a later day's. */
  lemma LimitsSurviveIff(s: State, e: Event, limits: Limits)
    requires Budgeted(s, limits) && Admits(s, e) && e.limits == limits
    requires 0 < s.budget.calls || 0 < s.budget.money
    ensures (forall es :: InDayOrder(Step(s, e), es, limits) ==> WithinLimits(Play(Step(s, e), es), limits))
            <==> s.budget.day <= Day(e.now)
  {
    if s.budget.day <= Day(e.now) {
      AdmissionKeepsBudget(s, e, limits);
      forall es | InDayOrder(Step(s, e), es, limits) ensures WithinLimits(Play(Step(s, e), es), limits) {
        DailyLimitHolds(Step(s, e), es, limits);
      }
    } else {
      var es := OvertakenAdmissionForgets(s, e, limits);
      var t := Play(Step(s, e), es);
      hide Step, Play, Budgeted, Admits, InDayOrder, ReservedOn, MoneyOn;
      assert ReservedOn(t.reviews, s.budget.day) > limits.calls || MoneyOn(t.reviews, s.budget.day) > limits.money;
    }
  }

  lemma FirstAdmission(limits: Limits) returns (es: seq<Event>)
    requires 1 <= limits.calls
    ensures var s := Play(EMPTY, es);
            && Budgeted(s, limits) && s.budget == Budget(1, 1, 0)
            && s.reviews == [Review(true, None, None, DAY_SECONDS, [0], 0)]
  {
    var first := Start(DAY_SECONDS, [0], 0, limits, false);
    es := Happened(EMPTY, [], first);
    AdmissionKeepsBudget(EMPTY, first, limits);
    hide ReservedOn, MoneyOn, Budgeted;
  }

  /** Admissions do get overtaken: a review of a later day may be over before the earlier clock gets its lock. */
  lemma AdmissionIsOvertaken(limits: Limits) returns (es: seq<Event>, e: Event)
    requires 1 <= limits.calls
    ensures var s := Play(EMPTY, es);
            Budgeted(s, limits) && Admits(s, e) && e.limits == limits && 0 < s.budget.calls && Day(e.now) < s.budget.day
  {
    es := FirstAdmission(limits);
    var a := Play(EMPTY, es);
    var stops, s := ClaimAndStop(a, 0, DAY_SECONDS);
    hide Step, Play, Budgeted;
    PlayOn(EMPTY, es, stops);
    NoAdmissionKeepsBudget(a, stops, limits);
    es := es + stops;
    e := Start(0, [0], 0, limits, false);
  }

  lemma {:induction false} NoAdmissionKeepsBudget(s: State, es: seq<Event>, limits: Limits)
    requires Budgeted(s, limits) && forall e <- es :: !e.Start?
    ensures Budgeted(Play(s, es), limits)
    decreases |es|
  {
    if es != [] {
      OthersKeepBudget(s, es[0], limits);
      hide Step, Budgeted;
      NoAdmissionKeepsBudget(Step(s, es[0]), es[1..], limits);
    }
  }

  // ---- Takeovers ----

  /** The tick may still make a call. */
  predicate CanCall(k: Tick) { k.Leased? || k.Submitted? }

  function ReviewOf(k: Tick): nat { if k.Leased? then k.review else k.key.review }

  /** A tick that started at `now` and decides next would save a request, unless it is told to stop. */
  predicate MayRequest(s: State, r: nat, now: int) {
    && r < |s.reviews| && !AnyOpen(s.requests, r) && !Stale(s.reviews[r], now)
    && NextCase(s.requests, r, s.reviews[r].cases).Some?
  }

  /** The lease is taken over from a tick that may still call, although one of the two has saved a request or
      may still save one. */
  ghost predicate Dangerous(s: State, e: Event) {
    && Takes(s, e)
    && exists u <- s.ticks.Keys ::
         && CanCall(s.ticks[u]) && ReviewOf(s.ticks[u]) == e.review
         && (s.ticks[u].Submitted? || MayRequest(s, e.review, s.ticks[u].now) || MayRequest(s, e.review, e.now))
  }

  /** A tick that will only find out that there is nothing to do. */
  ghost predicate Idle(s: State, u: nat) {
    u in s.ticks && s.ticks[u].Leased? && !MayRequest(s, s.ticks[u].review, s.ticks[u].now)
  }

  ghost predicate IdleHolder(s: State, r: nat)
    requires r < |s.reviews|
  {
    var v := s.reviews[r].token;
    v.Some? && v.value in s.ticks ==> Idle(s, v.value) && s.ticks[v.value].review == r
  }

  ghost predicate GuardedAt(s: State, u: nat)
    requires u in s.ticks
  {
    var r := ReviewOf(s.ticks[u]);
    && r < |s.reviews|
    && ((s.reviews[r].active && s.reviews[r].token == Some(u)) || (Idle(s, u) && (s.reviews[r].active ==> IdleHolder(s, r))))
  }

  /** Whoever may still call holds its active review, or is idle and so is the holder. */
  ghost predicate Guarded(s: State) {
    forall u <- s.ticks.Keys :: CanCall(s.ticks[u]) ==> GuardedAt(s, u)
  }

  /** What a tick of review `r` decides from is the same in both states. */
  ghost predicate SameInputs(s: State, t: State, r: nat) {
    && r < |s.reviews| && r < |t.reviews|
    && t.reviews[r].cases == s.reviews[r].cases && t.reviews[r].createdAt == s.reviews[r].createdAt
    && (forall k: Key :: k.review == r && k in s.requests ==> k in t.requests && t.requests[k] == s.requests[k])
    && (forall k: Key :: k.review == r && k in t.requests ==> k in s.requests)
  }

  lemma {:induction false} SameNextCase(a: map<Key, Request>, b: map<Key, Request>, r: nat, cases: seq<nat>)
    requires forall c :: Key(r, c) in a <==> Key(r, c) in b
    ensures NextCase(a, r, cases) == NextCase(b, r, cases)
  {
    if cases != [] { SameNextCase(a, b, r, cases[1..]); }
  }

  lemma SameDecision(s: State, t: State, r: nat, now: int)
    requires SameInputs(s, t, r)
    ensures MayRequest(t, r, now) == MayRequest(s, r, now)
  {
    forall c ensures Key(r, c) in s.requests <==> Key(r, c) in t.requests { assert Key(r, c).review == r; }
    SameNextCase(s.requests, t.requests, r, s.reviews[r].cases);
    hide NextCase, Day;
    assert AnyOpen(t.requests, r) == AnyOpen(s.requests, r);
  }

  /** A step that touches neither the tick, its review's lease nor its inputs leaves its guard alone. */
  lemma GuardStays(s: State, t: State, u: nat)
    requires u in s.ticks && u in t.ticks && t.ticks[u] == s.ticks[u] && CanCall(s.ticks[u]) && GuardedAt(s, u)
    requires var r := ReviewOf(s.ticks[u]); SameInputs(s, t, r)
    requires var r := ReviewOf(s.ticks[u]);
             && t.reviews[r].active == s.reviews[r].active && t.reviews[r].token == s.reviews[r].token
             && (s.reviews[r].active ==>
                   forall v :: s.reviews[r].token == Some(v) && v in t.ticks ==> v in s.ticks && t.ticks[v] == s.ticks[v])
    ensures GuardedAt(t, u)
  {
    var r := ReviewOf(s.ticks[u]);
    hide SameInputs, MayRequest;
    forall now ensures MayRequest(t, r, now) == MayRequest(s, r, now) { SameDecision(s, t, r, now); }
  }

  lemma SubmitKeepsGuarded(s: State, token: nat)
    requires Guarded(s) && token in s.ticks && s.ticks[token].Leased?
    requires MayRequest(s, s.ticks[token].review, s.ticks[token].now)
    ensures Guarded(Decided(s, token, false))
  {
    var r, now, t := s.ticks[token].review, s.ticks[token].now, Decided(s, token, false);
    var k, last := Key(r, NextCase(s.requests, r, s.reviews[r].cases).value), t.ticks[token].last;
    assert t == s.(requests := s.requests[k := Request(now, Unconfirmed)], ticks := s.ticks[token := Submitted(k, last)]);
    assert GuardedAt(s, token);
    hide Decided, MayRequest;
    forall u <- t.ticks.Keys | CanCall(t.ticks[u]) && u != token ensures GuardedAt(t, u) {
      assert GuardedAt(s, u);
      GuardStays(s, t, u);
    }
  }

  lemma StopKeepsGuarded(s: State, token: nat, stop: bool)
    requires Guarded(s) && token in s.ticks && s.ticks[token].Leased?
    requires stop || !MayRequest(s, s.ticks[token].review, s.ticks[token].now)
    ensures Guarded(Decided(s, token, stop))
  {
    var r, t := s.ticks[token].review, Decided(s, token, stop);
    assert GuardedAt(s, token);
    assert t == Finish(s.(ticks := s.ticks - {token}), r);
    hide Decided;
    forall u <- t.ticks.Keys | CanCall(t.ticks[u]) ensures GuardedAt(t, u) {
      assert GuardedAt(s, u);
      hide MayRequest;
      if ReviewOf(s.ticks[u]) == r {
        assert Idle(s, u);
        SameDecision(s, t, r, s.ticks[u].now);
      } else {
        GuardStays(s, t, u);
      }
    }
  }

  lemma RecordKeepsGuarded(s: State, token: nat, outcome: Outcome, stop: bool, now: int)
    requires Guarded(s) && token in s.ticks && s.ticks[token].Called?
    ensures Guarded(Recorded(s, token, outcome, stop, now))
  {
    var k, t := s.ticks[token].key, Recorded(s, token, outcome, stop, now);
    forall u <- t.ticks.Keys | CanCall(t.ticks[u]) ensures GuardedAt(t, u) {
      assert GuardedAt(s, u);
      hide MayRequest;
      GuardStays(s, t, u);
    }
  }

  lemma ClaimKeepsGuarded(s: State, e: Event)
    requires Inv(s) && Guarded(s) && e.Claim? && Takes(s, e) && !Dangerous(s, e)
    ensures Guarded(Step(s, e))
  {
    var t := Step(s, e);
    forall u <- t.ticks.Keys | CanCall(t.ticks[u]) && u != e.token ensures GuardedAt(t, u) {
      assert GuardedAt(s, u);
      var r := ReviewOf(s.ticks[u]);
      assert r != e.review ==> !s.reviews[r].active;
      hide MayRequest, Inv;
      if r == e.review {
        SameDecision(s, t, e.review, s.ticks[u].now);
        SameDecision(s, t, e.review, e.now);
      } else {
        GuardStays(s, t, u);
      }
    }
  }

  lemma OtherStepKeepsGuarded(s: State, e: Event)
    requires Guarded(s) && (e.Start? || e.CallProvider? || e.Die?)
    ensures Guarded(Step(s, e))
  {
    var t := Step(s, e);
    hide AnyActive, Distinct, Day, MayRequest;
    forall u <- t.ticks.Keys | CanCall(t.ticks[u]) ensures GuardedAt(t, u) {
      assert GuardedAt(s, u);
      GuardStays(s, t, u);
    }
  }

  lemma StepKeepsGuarded(s: State, e: Event)
    requires Inv(s) && Guarded(s) && !Dangerous(s, e)
    ensures Guarded(Step(s, e))
  {
    hide Inv, Decided, Recorded, Dangerous, MayRequest, Guarded;
    match e {
      case Start(_, _, _, _, _) => OtherStepKeepsGuarded(s, e);
      case CallProvider(_, _) => OtherStepKeepsGuarded(s, e);
      case Die(_) => OtherStepKeepsGuarded(s, e);
      case Claim(_, _, _) => if Takes(s, e) { ClaimKeepsGuarded(s, e); }
      case Decide(token, stop) =>
        if token in s.ticks && s.ticks[token].Leased? {
          if stop || !MayRequest(s, s.ticks[token].review, s.ticks[token].now) { StopKeepsGuarded(s, token, stop); }
          else { SubmitKeepsGuarded(s, token); }
        }
      case Record(token, outcome, stop, now) =>
        if token in s.ticks && s.ticks[token].Called? { RecordKeepsGuarded(s, token, outcome, stop, now); }
    }
  }

  /** Every call is for a review that is active when it is made. */
  ghost predicate CallsForActive(s: State, es: seq<Event>)
    decreases |es|
  {
    es != [] ==>
      && (es[0].CallProvider? && es[0].token in s.ticks && s.ticks[es[0].token].Submitted? ==>
            var r := s.ticks[es[0].token].key.review; r < |s.reviews| && s.reviews[r].active)
      && CallsForActive(Step(s, es[0]), es[1..])
  }

  ghost predicate NeverDangerous(s: State, es: seq<Event>)
    decreases |es|
  {
    es != [] ==> !Dangerous(s, es[0]) && NeverDangerous(Step(s, es[0]), es[1..])
  }

  /** Without dangerous takeovers every provider call, in every history, is for an active review. */
  lemma {:induction false} CallsAreForActiveReviews(s: State, es: seq<Event>)
    requires Inv(s) && Guarded(s) && NeverDangerous(s, es)
    ensures CallsForActive(s, es)
    decreases |es|
  {
    if es != [] {
      var e := es[0];
      if e.CallProvider? && e.token in s.ticks && s.ticks[e.token].Submitted? { assert GuardedAt(s, e.token); }
      StepKeepsInv(s, e);
      StepKeepsGuarded(s, e);
      hide Inv, Guarded, Step, Dangerous;
      CallsAreForActiveReviews(Step(s, e), es[1..]);
    }
  }

  /** A dangerous takeover can be followed, without another one, by a call for a finished review. */
  lemma DangerousTakeoverCalls(s: State, e: Event) returns (es: seq<Event>)
    requires Dangerous(s, e)
    ensures NeverDangerous(Step(s, e), es) && !CallsForActive(Step(s, e), es)
  {
    var r := e.review;
    var u :| u in s.ticks && CanCall(s.ticks[u]) && ReviewOf(s.ticks[u]) == r
             && (s.ticks[u].Submitted? || MayRequest(s, r, s.ticks[u].now) || MayRequest(s, r, e.now));
    var t := Step(s, e);
    if s.ticks[u].Submitted? {
      es := FinishAndCall(t, e.token, u);
    } else {
      SameDecision(s, t, r, e.now);
      SameDecision(s, t, r, s.ticks[u].now);
      if MayRequest(s, r, e.now) { es := FinishAndRequest(t, u, e.token); } else { es := FinishAndRequest(t, e.token, u); }
    }
  }

  lemma OneStepEarlier(s: State, e: Event, es: seq<Event>)
    requires !e.Claim? && NeverDangerous(Step(s, e), es) && !CallsForActive(Step(s, e), es)
    ensures NeverDangerous(s, [e] + es) && !CallsForActive(s, [e] + es)
  {
    hide Step;
    assert ([e] + es)[1..] == es;
  }

  lemma CallForInactive(s: State, token: nat) returns (es: seq<Event>)
    requires token in s.ticks && s.ticks[token].Submitted?
    requires var r := s.ticks[token].key.review; r < |s.reviews| && !s.reviews[r].active
    ensures NeverDangerous(s, es) && !CallsForActive(s, es)
  {
    es := [CallProvider(token, 0)];
    assert es[1..] == [];
  }

  /** One tick finishes the review, another one calls for it. */
  lemma FinishAndCall(t: State, first: nat, second: nat) returns (es: seq<Event>)
    requires first != second && first in t.ticks && t.ticks[first].Leased? && t.ticks[first].review < |t.reviews|
    requires second in t.ticks && t.ticks[second].Submitted? && t.ticks[second].key.review == t.ticks[first].review
    ensures NeverDangerous(t, es) && !CallsForActive(t, es)
  {
    var finish := Decide(first, true);
    es := CallForInactive(Step(t, finish), second);
    OneStepEarlier(t, finish, es);
    es := [finish] + es;
  }

  lemma FinishAndRequest(t: State, first: nat, second: nat) returns (es: seq<Event>)
    requires first != second && first in t.ticks && t.ticks[first].Leased?
    requires second in t.ticks && t.ticks[second].Leased? && t.ticks[second].review == t.ticks[first].review
    requires MayRequest(t, t.ticks[second].review, t.ticks[second].now)
    ensures NeverDangerous(t, es) && !CallsForActive(t, es)
  {
    var r, finish, request := t.ticks[second].review, Decide(first, true), Decide(second, false);
    var u := Step(t, finish);
    SameDecision(t, u, r, t.ticks[second].now);
    es := CallForInactive(Step(u, request), second);
    hide CallsForActive, NeverDangerous;
    OneStepEarlier(u, request, es);
    OneStepEarlier(t, finish, [request] + es);
    es := [finish] + ([request] + es);
  }

  /** Exactly the dangerous takeovers let a later call be for a finished review. The second transaction of a
      tick is not fenced by its lease, so the stalled tick, or the one that took over, pays for it. */
  lemma CallForAFinishedReviewIff(s: State, e: Event)
    requires Inv(s) && Guarded(s)
    ensures (forall es :: NeverDangerous(Step(s, e), es) ==> CallsForActive(Step(s, e), es)) <==> !Dangerous(s, e)
  {
    if Dangerous(s, e) {
      var es := DangerousTakeoverCalls(s, e);
    } else {
      StepKeepsInv(s, e);
      StepKeepsGuarded(s, e);
      forall es | NeverDangerous(Step(s, e), es) ensures CallsForActive(Step(s, e), es) {
        CallsAreForActiveReviews(Step(s, e), es);
      }
    }
  }

  /** Such a takeover does happen: a tick that stalls for longer than its lease is enough. */
  lemma StalledTickIsTakenOver() returns (es: seq<Event>, e: Event)
    ensures var s := Play(EMPTY, es); Inv(s) && Guarded(s) && Dangerous(s, e)
  {
    es := Happened(EMPTY, [], Start(0, [0], 5, Limits(1, 5), false));
    es := Happened(EMPTY, es, Claim(7, 0, 0));
    e := Claim(8, 0, LEASE);
    var t := Play(EMPTY, es);
    assert t.reviews == [Review(true, Some(7), Some(LEASE), 0, [0], 5)];
    assert t.ticks == map[7 := Leased(0, 0)] && t.requests == map[];
    HistoryKeepsInv(EMPTY, es);
    hide Inv;
    assert 7 in t.ticks && GuardedAt(t, 7) && MayRequest(t, 0, 0);
  }

  // ---- The worker ----

  predicate IsStepOf(e: Event, token: nat) {
    match e
    case Start(_, _, _, _, _) => false
    case Claim(t, _, _) => t == token
    case Decide(t, _) => t == token
    case CallProvider(t, _) => t == token
    case Record(t, _, _, _) => t == token
    case Die(t) => t == token
  }

  /** The review a request identifier stands for, and who asked for it with which content. */
  datatype Named = Named(review: nat, actor: nat, content: string)

  datatype Admission = Existing(review: nat) | Admitted(review: nat) | Refused

  class Desk {
    var names: map<nat, Named>
    var reviews: seq<Review>
    var requests: map<Key, Request>
    var ticks: map<nat, Tick>
    var calls: seq<Call>
    var budget: Budget

    ghost function Value(): State
      reads this
    {
      State(reviews, requests, ticks, calls, budget)
    }

    constructor ()
      ensures Value() == EMPTY && names == map[]
    {
      names := map[];
      reviews, requests, ticks, calls, budget := [], map[], map[], [], Budget(0, 0, 0);
    }

    /** Admit a review if the day's budget and the one-active-review rule allow it. Asking again under the same
        identifier reserves nothing: it is answered with the review it stands for, or refused if it is not the
        same request. */
    method StartReview(name: nat, actor: nat, content: string, now: int, cases: seq<nat>, money: nat, limits: Limits,
                       refused: bool)
      returns (r: Admission)
      requires Distinct(cases)
      modifies this
      ensures name in old(names) ==>
                var known := old(names)[name];
                && Value() == old(Value()) && names == old(names)
                && r == if known.actor == actor && known.content == content then Existing(known.review) else Refused
      ensures name !in old(names) ==>
                && Value() == Step(old(Value()), Start(now, cases, money, limits, refused))
                && r == (if reviews == old(reviews) then Refused else Admitted(|old(reviews)|))
                && names == if r.Admitted? then old(names)[name := Named(r.review, actor, content)] else old(names)
      ensures name !in old(names) ==>
                var counter := if old(budget).day == Day(now) then old(budget) else Budget(Day(now), 0, 0);
                && (r.Admitted? <==>
                      && !refused && (forall i :: 0 <= i < |old(reviews)| ==> !old(reviews)[i].active)
                      && counter.money + money <= limits.money && counter.calls + |cases| <= limits.calls)
                && (r.Admitted? ==>
                      && reviews == old(reviews) + [Review(true, None, None, now, cases, money)]
                      && budget == Budget(Day(now), counter.calls + |cases|, counter.money + money))
                && (!r.Admitted? ==> Value() == old(Value()))
    {
      if name in names {
        var known := names[name];
        return if known.actor != actor || known.content != content then Refused else Existing(known.review);
      }
      if refused { return Refused; }
      var day := if budget.day == Day(now) then budget else Budget(Day(now), 0, 0);
      if day.money + money > limits.money || day.calls + |cases| > limits.calls { return Refused; }
      if AnyActive(reviews) { return Refused; }
      budget := day.(calls := day.calls + |cases|, money := day.money + money);
      r := Admitted(|reviews|);
      names := names[name := Named(|reviews|, actor, content)];
      reviews := reviews + [Review(true, None, None, now, cases, money)];
    }

    method ClaimLease(token: nat, now: int) returns (claimed: bool, ghost event: Event)
      requires token !in ticks
      modifies this
      ensures Value() == Step(old(Value()), event)
      ensures claimed ==> token in ticks && ticks[token].Leased?
      ensures requests == old(requests) && calls == old(calls) && budget == old(budget)
      ensures !claimed ==>
                && Value() == old(Value())
                && ((forall r :: 0 <= r < |reviews| ==> !reviews[r].active)
                    || exists r :: 0 <= r < |reviews| && reviews[r].active && (forall q :: 0 <= q < r ==> !reviews[q].active)
                                   && reviews[r].leaseUntil.Some? && now < reviews[r].leaseUntil.value)
      ensures claimed ==>
                var r := ticks[token].review;
                && event == Claim(token, r, now) && (forall q :: 0 <= q < r ==> !reviews[q].active)
                && ticks == old(ticks)[token := Leased(r, now)] && r < |old(reviews)| && old(reviews)[r].active
                && (old(reviews)[r].leaseUntil.Some? ==> old(reviews)[r].leaseUntil.value <= now)
                && reviews == old(reviews)[r := old(reviews)[r].(token := Some(token), leaseUntil := Some(now + 180))]
    {
      var r := 0;
      while r < |reviews| && !reviews[r].active
        invariant r <= |reviews| && forall q :: 0 <= q < r ==> !reviews[q].active
      {
        r := r + 1;
      }
      event := Claim(token, r, now);
      if r == |reviews| || (reviews[r].leaseUntil.Some? && reviews[r].leaseUntil.value > now) { return false, event; }
      reviews := reviews[r := reviews[r].(token := Some(token), leaseUntil := Some(now + LEASE))];
      ticks := ticks[token := Leased(r, now)];
      claimed := true;
    }

    method FinishReview(r: nat)
      requires r < |reviews|
      modifies `reviews
      ensures Value() == Finish(old(Value()), r)
    {
      reviews := reviews[r := reviews[r].(active := false, token := None)];
    }

    /** Decide what to do next, and save the request before any call is made. */
    method DecideNext(token: nat, stop: bool) returns (submitted: bool)
      requires token in ticks && ticks[token].Leased?
      modifies this
      ensures Value() == Step(old(Value()), Decide(token, stop))
      ensures submitted ==> token in ticks && ticks[token].Submitted?
      ensures calls == old(calls) && budget == old(budget)
      ensures var r, now := old(ticks)[token].review, old(ticks)[token].now;
              submitted <==>
                && !stop && r < |old(reviews)|
                && (forall k <- old(requests).Keys :: k.review == r ==> old(requests)[k].outcome == Accepted)
                && now <= old(reviews)[r].createdAt + 7_200 && Day(now) == Day(old(reviews)[r].createdAt)
                && exists c <- old(reviews)[r].cases :: Key(r, c) !in old(requests)
      ensures submitted ==>
                var r, now, k := old(ticks)[token].review, old(ticks)[token].now, ticks[token].key;
                && reviews == old(reviews) && k.review == r && k !in old(requests)
                && (exists i :: 0 <= i < |reviews[r].cases| && reviews[r].cases[i] == k.item
                                && forall j :: 0 <= j < i ==> Key(r, reviews[r].cases[j]) in old(requests))
                && requests == old(requests)[k := Request(now, Unconfirmed)]
                && ticks == old(ticks)[token := Submitted(k, |Previous(old(requests), r)| + 1 == |reviews[r].cases|)]
      ensures !submitted ==>
                var r := old(ticks)[token].review;
                && requests == old(requests) && ticks == old(ticks) - {token}
                && reviews == if r < |old(reviews)| then old(reviews)[r := old(reviews)[r].(active := false, token := None)]
                              else old(reviews)
    {
      var r, now := ticks[token].review, ticks[token].now;
      submitted := false;
      if r >= |reviews| { ticks := ticks - {token}; return; }
      var previous := Previous(requests, r);
      if exists k <- previous :: !requests[k].outcome.Accepted? {
        ticks := ticks - {token}; FinishReview(r); return;
      }
      var next := NextCase(requests, r, reviews[r].cases);
      if stop || Stale(reviews[r], now) || next.None? {
        ticks := ticks - {token}; FinishReview(r); return;
      }
      var key := Key(r, next.value);
      requests := requests[key := Request(now, Unconfirmed)];
      ticks := ticks[token := Submitted(key, |previous| + 1 == |reviews[r].cases|)];
      submitted := true;
    }

    /** Keep the response only if the lease token is still ours. */
    method RecordResponse(token: nat, outcome: Outcome, stop: bool, now: int) returns (kept: bool)
      requires token in ticks && ticks[token].Called?
      modifies this
      ensures Value() == Step(old(Value()), Record(token, outcome, stop, now))
      ensures var k := old(ticks)[token].key;
              kept <==> k in old(requests) && k.review < |old(reviews)|
                        && old(reviews)[k.review].token == Some(token) && old(reviews)[k.review].active
      ensures calls == old(calls) && budget == old(budget) && ticks == old(ticks) - {token}
      ensures !kept ==> requests == old(requests) && reviews == old(reviews)
      ensures kept ==>
                var k := old(ticks)[token].key;
                var open := outcome == Accepted && !stop && !old(ticks)[token].last;
                && requests == old(requests)[k := old(requests)[k].(outcome := outcome)]
                && reviews == old(reviews)[k.review :=
                                old(reviews)[k.review].(active := open, token := None, leaseUntil := Some(now))]
    {
      var k, last := ticks[token].key, ticks[token].last;
      ticks := ticks - {token};
      if k.review >= |reviews| || k !in requests { return false; }
      if reviews[k.review].token != Some(token) || !reviews[k.review].active { return false; }
      requests := requests[k := requests[k].(outcome := outcome)];
      reviews := reviews[k.review := reviews[k.review].(leaseUntil := Some(now), token := None)];
      if !outcome.Accepted? || stop || last { FinishReview(k.review); }
      kept := true;
    }

    /** Anything other ticks and admissions may do meanwhile, or nothing if the tick is left `alone`. */
    method Others(token: nat, ghost start: State, ghost past: seq<Event>, alone: bool) returns (ghost events: seq<Event>)
      requires Value() == Play(start, past)
      modifies this
      ensures Value() == Play(start, events) && forall n <- old(names).Keys :: n in names && names[n] == old(names)[n]
      ensures (token in ticks <==> old(token in ticks)) && (token in ticks ==> ticks[token] == old(ticks[token]))
      ensures alone ==> Value() == old(Value()) && names == old(names)
    {
      events := past;
      if alone { return; }
      var steps: int, named: map<nat, Named> := *, *;
      for n := 0 to if steps < 0 then 0 else steps
        invariant Value() == Play(start, events) && names == old(names)
        invariant (token in ticks <==> old(token in ticks)) && (token in ticks ==> ticks[token] == old(ticks[token]))
      {
        var e: Event := *;
        if !IsStepOf(e, token) {
          OthersLeave(Value(), e, token);
          var t := Step(State(reviews, requests, ticks, calls, budget), e);
          events := Happened(start, events, e);
          reviews, requests, ticks, calls, budget := t.reviews, t.requests, t.ticks, t.calls, t.budget;
        }
      }
      names := named + names;
    }

    /** The provider is called; what it answers is not known yet. */
    method MakeCall(token: nat, at: int)
      requires token in ticks && ticks[token].Submitted?
      modifies `calls, `ticks
      ensures Value() == Step(old(Value()), CallProvider(token, at))
      ensures calls == old(calls) + [Call(old(ticks)[token].key, at)]
      ensures ticks == old(ticks)[token := Called(old(ticks)[token].key, old(ticks)[token].last)]
    {
      calls := calls + [Call(ticks[token].key, at)];
      ticks := ticks[token := Called(ticks[token].key, ticks[token].last)];
    }

    /** Case `c` of the active review `r` is next: its lease is free, its reservation is valid, every earlier request
        was accepted, and the cases before `c` have theirs. */
    ghost predicate IsNext(r: nat, c: nat, now: int)
      reads this
    {
      && r < |reviews| && reviews[r].active && (forall q :: 0 <= q < r ==> !reviews[q].active)
      && (reviews[r].leaseUntil.Some? ==> reviews[r].leaseUntil.value <= now)
      && now <= reviews[r].createdAt + 7_200 && Day(now) == Day(reviews[r].createdAt)
      && (forall k <- requests.Keys :: k.review == r ==> requests[k].outcome == Accepted)
      && exists i :: 0 <= i < |reviews[r].cases| && reviews[r].cases[i] == c && Key(r, c) !in requests
                     && forall j :: 0 <= j < i ==> Key(r, reviews[r].cases[j]) in requests
    }

    /** The first two transactions of a tick. */
    method ClaimAndDecide(token: nat, now: int, stop: bool, alone: bool, ghost r: nat, ghost c: nat)
      returns (submitted: bool, ghost events: seq<Event>)
      requires token !in ticks
      modifies this
      ensures Value() == Play(old(Value()), events)
      ensures submitted ==> token in ticks && ticks[token].Submitted?
      ensures alone && !stop && old(IsNext(r, c, now)) ==>
                && submitted && ticks[token].key == Key(r, c) && calls == old(calls)
                && requests == old(requests)[Key(r, c) := Request(now, Unconfirmed)]
                && r < |reviews| == |old(reviews)| && reviews[r].active && reviews[r].token == Some(token)
                && ticks[token].last == (|Previous(old(requests), r)| + 1 == |old(reviews)[r].cases|)
    {
      ghost var start := Value();
      var claimed: bool;
      ghost var first: Event;
      assert start == Play(start, []);
      hide Step, Play, Day;
      claimed, first := ClaimLease(token, now);
      events := Happened(start, [], first);
      if !claimed { return false, events; }
      events := Others(token, start, events, alone);
      var crash: bool := *;
      if crash && !alone { return false, events; }
      submitted := DecideNext(token, stop);
      events := Happened(start, events, Decide(token, stop));
    }

    /** One tick: at most one call, its request saved before and its response kept only if still ours. Anything may
        happen in between, and it may crash anywhere. A tick that is left alone calls for the case that is next,
        exactly once, and saves what came back. */
    method RunTick(token: nat, now: int, stop: bool, at: int, outcome: Outcome, stopAfter: bool, alone: bool,
                   ghost r: nat, ghost c: nat)
      returns (ghost events: seq<Event>)
      requires token !in ticks
      modifies this
      ensures Value() == Play(old(Value()), events)
      ensures alone && !stop && old(IsNext(r, c, now)) ==>
                && calls == old(calls) + [Call(Key(r, c), at)]
                && requests == old(requests)[Key(r, c) := Request(now, outcome)]
                && |reviews| == |old(reviews)|
                && (reviews[r].active <==>
                      outcome == Accepted && !stopAfter && |Previous(old(requests), r)| + 1 != |old(reviews)[r].cases|)
    {
      ghost var start := Value();
      hide Step, Play, Day, IsNext, Previous;
      var submitted;
      submitted, events := ClaimAndDecide(token, now, stop, alone, r, c);
      if !submitted { return; }
      events := Others(token, start, events, alone);
      var crash: bool := *;
      if crash && !alone { return; }
      MakeCall(token, at);
      events := Happened(start, events, CallProvider(token, at));
      events := Others(token, start, events, alone);
      crash := *;
      if crash && !alone { return; }
      var kept := RecordResponse(token, outcome, stopAfter, at);
      events := Happened(start, events, Record(token, outcome, stopAfter, at));
    }
  }

  lemma OthersLeave(s: State, e: Event, token: nat)
    requires !IsStepOf(e, token)
    ensures token in Step(s, e).ticks <==> token in s.ticks
    ensures token in s.ticks ==> Step(s, e).ticks[token] == s.ticks[token]
  {
  }
}
