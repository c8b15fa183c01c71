/** Turning due occurrences into queued runs, and the preview of the next ones.

    One event is one transaction of one dispatcher. Events carry the clock of their dispatcher, so
    any number of dispatchers with disagreeing clocks is a sequence of events in commit order. */
module Dispatch {
  import opened Prelude
  import opened Timelines
  import R = Recurrence

  const RETRY_DELAY := 60_000_000
  const PREVIEW_LENGTH := 3

  /** What run admission answers: accepted, refused by the subscription, or another run is active. */
  datatype Admission = Admitted | Denied | Busy

  /** What a transaction learns besides the digest row. */
  datatype Facts = Facts(subscriptionPauses: bool, ownerActive: bool, admission: Admission)

  /** The scheduling columns of a digest; `runs` are the `scheduled_for` values queued, in order. */
  datatype Row = Row(nextAt: Option<int>, paused: bool, retryAt: Option<int>, runs: seq<int>)

  predicate IsDue(nextAt: Option<int>, now: int) { nextAt.Some? && nextAt.value <= now }

  /** The row after one transaction that had read the cursor as `seen`. */
  ghost function Dispatched(l: Timeline, r: Row, seen: Option<int>, now: int, f: Facts): Row
    requires Increasing(l)
  {
    if !IsDue(seen, now) then r
    else if r.paused || f.subscriptionPauses then r.(paused := true)
    else if r.nextAt != seen || !f.ownerActive then r
    else match LatestDue(l, now)
      case None => r.(nextAt := Upcoming(l, now))
      case Some(due) =>
        match f.admission
        case Admitted => Row(Upcoming(l, now), r.paused, None, r.runs + [due])
        case Denied => r.(retryAt := Some(now + RETRY_DELAY))
        case Busy => r
  }

  class Digest {
    const schedule: R.Schedule
    var nextAt: Option<int>
    var paused: bool
    var retryAt: Option<int>
    var runs: seq<int>

    ghost function Value(): Row
      reads this
    {
      Row(nextAt, paused, retryAt, runs)
    }

    /** Saving a schedule starts it at its next future occurrence. */
    constructor (schedule: R.Schedule, now: int)
      requires R.Narrow(schedule.zone)
      ensures this.schedule == schedule
      ensures Value() == Row(Upcoming(R.Line(schedule), now), false, None, []) && Orderly(R.Line(schedule), Value())
    {
      FreshIsOrderly(R.Line(schedule), now);
      var cursor := R.FirstDispatch(schedule, now);
      this.schedule, nextAt, paused, retryAt, runs := schedule, cursor, false, None, [];
    }

    /** One digest of one tick. The cursor moves only if it still has the value read before. */
    method Dispatch(seen: Option<int>, now: int, f: Facts) returns (queued: bool)
      requires R.Narrow(schedule.zone)
      modifies this
      ensures Value() == Dispatched(R.Line(schedule), old(Value()), seen, now, f)
      ensures queued <==> runs != old(runs)
      ensures seen.None? || now < seen.value ==> Value() == old(Value())
      ensures seen.Some? && seen.value <= now && (old(paused) || f.subscriptionPauses) ==> Value() == old(Value()).(paused := true)
      ensures seen.Some? && seen.value <= now && !old(paused) && !f.subscriptionPauses ==>
                if old(nextAt) != seen || !f.ownerActive then Value() == old(Value())
                else
                  var due, next := LatestDue(R.Line(schedule), now), Upcoming(R.Line(schedule), now);
                  if due.None? then Value() == Row(next, false, old(retryAt), old(runs))
                  else match f.admission
                    case Admitted => Value() == Row(next, false, None, old(runs) + [due.value]) && queued
                    case Denied => Value() == Row(seen, false, Some(now + 60_000_000), old(runs))
                    case Busy => Value() == old(Value())
    {
      queued := false;
      if seen.None? || seen.value > now { return; }
      paused := paused || f.subscriptionPauses;
      if paused { return; }
      var due, following := R.Around(schedule, now);
      if nextAt != seen || !f.ownerActive { return; }
      nextAt := following;
      if due.None? { return; }
      match f.admission {
        case Admitted =>
          retryAt, runs, queued := None, runs + [due.value], true;
        case Denied =>
          nextAt, retryAt := seen, Some(now + RETRY_DELAY);
        case Busy =>
          nextAt := seen;
      }
    }
  }

  function Count(accepted: seq<bool>): nat {
    if accepted == [] then 0
    else Count(accepted[..|accepted| - 1]) + (if accepted[|accepted| - 1] then 1 else 0)
  }

  // ---- One pass ----

  const BATCH := 100

  /** The cursor is due, and neither a pause, an inactive owner nor a recent refusal holds the digest back. */
  predicate Eligible(r: Row, active: bool, now: int) {
    IsDue(r.nextAt, now) && !r.paused && active && (r.retryAt.Some? ==> r.retryAt.value <= now)
  }

  /** Digest `i` has been due for longer than `j`; ties are broken by identifier. */
  predicate Sooner(rows: seq<Row>, i: nat, j: nat)
    requires i < |rows| && j < |rows| && rows[i].nextAt.Some? && rows[j].nextAt.Some?
  {
    rows[i].nextAt.value < rows[j].nextAt.value || (rows[i].nextAt.value == rows[j].nextAt.value && i < j)
  }

  /** Eligible digests in order of their due times; one is left out only if all selected are due sooner. */
  ghost predicate Selected(rows: seq<Row>, active: seq<bool>, now: int, ids: seq<nat>)
    requires |active| == |rows|
  {
    && (forall k :: 0 <= k < |ids| ==> ids[k] < |rows| && Eligible(rows[ids[k]], active[ids[k]], now))
    && (forall j, k :: 0 <= j < k < |ids| ==> Sooner(rows, ids[j], ids[k]))
    && (forall i, k :: 0 <= i < |rows| && Eligible(rows[i], active[i], now) && i !in ids && 0 <= k < |ids| ==>
          Sooner(rows, ids[k], i))
  }

  /** The eligible digest that has been due longest, after those already taken. */
  method NextEligible(rows: seq<Row>, active: seq<bool>, now: int, ids: seq<nat>) returns (next: Option<nat>)
    requires |active| == |rows| && Selected(rows, active, now, ids)
    ensures next.None? ==> forall i :: 0 <= i < |rows| && Eligible(rows[i], active[i], now) ==> i in ids
    ensures next.Some? ==> next.value !in ids && Selected(rows, active, now, ids + [next.value])
  {
    next := None;
    for i := 0 to |rows|
      invariant next.None? ==> forall j :: 0 <= j < i && Eligible(rows[j], active[j], now) ==> j in ids
      invariant next.Some? ==> next.value < i && next.value !in ids && Eligible(rows[next.value], active[next.value], now)
      invariant next.Some? ==>
                  forall j :: 0 <= j < i && Eligible(rows[j], active[j], now) && j !in ids && j != next.value ==>
                    Sooner(rows, next.value, j)
    {
      if Eligible(rows[i], active[i], now) && i !in ids && (next.None? || Sooner(rows, i, next.value)) {
        next := Some(i);
      }
    }
    if next.Some? { OneMoreSelected(rows, active, now, ids, next.value); }
  }

  lemma OneMoreSelected(rows: seq<Row>, active: seq<bool>, now: int, ids: seq<nat>, next: nat)
    requires |active| == |rows| && Selected(rows, active, now, ids) && next < |rows| && next !in ids
    requires Eligible(rows[next], active[next], now)
    requires forall j :: 0 <= j < |rows| && Eligible(rows[j], active[j], now) && j !in ids && j != next ==>
               Sooner(rows, next, j)
    ensures Selected(rows, active, now, ids + [next])
  {
    var more := ids + [next];
    forall i, k | 0 <= i < |rows| && Eligible(rows[i], active[i], now) && i !in more && 0 <= k < |more|
      ensures Sooner(rows, more[k], i)
    {
      assert next in more && forall x <- ids :: x in more;
    }
  }

  /** Up to a hundred eligible digests, those that have been due longest. */
  method SelectDue(rows: seq<Row>, active: seq<bool>, now: int) returns (ids: seq<nat>)
    requires |active| == |rows|
    ensures |ids| <= 100 && Selected(rows, active, now, ids)
    ensures |ids| < 100 ==> forall i :: 0 <= i < |rows| && Eligible(rows[i], active[i], now) ==> i in ids
    ensures forall k :: 0 <= k < |ids| ==>
              && ids[k] < |rows| && rows[ids[k]].nextAt.Some? && rows[ids[k]].nextAt.value <= now && !rows[ids[k]].paused
              && active[ids[k]] && (rows[ids[k]].retryAt.Some? ==> rows[ids[k]].retryAt.value <= now)
    ensures forall j, k :: 0 <= j < k < |ids| ==>
              && rows[ids[j]].nextAt.value <= rows[ids[k]].nextAt.value
              && (rows[ids[j]].nextAt == rows[ids[k]].nextAt ==> ids[j] < ids[k])
    ensures forall i :: 0 <= i < |rows| && i !in ids && rows[i].nextAt.Some? && rows[i].nextAt.value <= now && !rows[i].paused
                        && active[i] && (rows[i].retryAt.Some? ==> rows[i].retryAt.value <= now) ==>
              |ids| == 100 && forall k :: 0 <= k < |ids| ==> rows[ids[k]].nextAt.value <= rows[i].nextAt.value
  {
    ids := SelectEligible(rows, active, now);
    InPlainTerms(rows, active, now, ids);
  }

  lemma InPlainTerms(rows: seq<Row>, active: seq<bool>, now: int, ids: seq<nat>)
    requires |active| == |rows| && Selected(rows, active, now, ids)
    ensures forall k :: 0 <= k < |ids| ==> ids[k] < |rows| && Eligible(rows[ids[k]], active[ids[k]], now)
    ensures forall j, k :: 0 <= j < k < |ids| ==> Sooner(rows, ids[j], ids[k])
  {
  }

  method SelectEligible(rows: seq<Row>, active: seq<bool>, now: int) returns (ids: seq<nat>)
    requires |active| == |rows|
    ensures |ids| <= BATCH && Selected(rows, active, now, ids)
    ensures |ids| < BATCH ==> forall i :: 0 <= i < |rows| && Eligible(rows[i], active[i], now) ==> i in ids
  {
    hide Eligible, Sooner;
    ids := [];
    while |ids| < BATCH
      invariant |ids| <= BATCH && Selected(rows, active, now, ids)
      decreases BATCH - |ids|
    {
      var next := NextEligible(rows, active, now, ids);
      if next.None? { return; }
      ids := ids + [next.value];
    }
  }

  /** A refused digest does not hold back the others: it is not selected again for a minute. */
  lemma DeniedWaits(l: Timeline, r: Row, e: Event, active: bool, later: int)
    requires Increasing(l) && Orderly(l, r) && !Expired(l, e.now) && Eligible(r, true, e.now)
    requires e.seen == r.nextAt && e.facts == Facts(false, true, Denied)
    ensures Eligible(Dispatched(l, r, e.seen, e.now, e.facts), active, later) <==> active && e.now + RETRY_DELAY <= later
  {
    var i: nat :| l.at(i) == r.nextAt.value;
    if 0 < i { assert l.at(0) < l.at(i); }
    LatestDueExact(l, e.now);
  }

  ghost function Values(digests: seq<Digest>): (rows: seq<Row>)
    reads digests
    ensures |rows| == |digests| && forall i :: 0 <= i < |digests| ==> rows[i] == digests[i].Value()
  {
    if digests == [] then [] else Values(digests[..|digests| - 1]) + [digests[|digests| - 1].Value()]
  }

  /** A digest takes its step by the cursor it has now. */
  method Turn(d: Digest, now: int, f: Facts) returns (queued: bool)
    requires R.Narrow(d.schedule.zone)
    modifies d
    ensures d.Value() == Dispatched(R.Line(d.schedule), old(d.Value()), old(d.nextAt), now, f)
    ensures queued <==> d.runs != old(d.runs)
  {
    queued := d.Dispatch(d.nextAt, now, f);
  }

  /** Every digest of a batch takes exactly its own step, whatever happens to the others. */
  method DispatchAll(batch: seq<Digest>, now: int, facts: seq<Facts>) returns (queued: nat, ghost accepted: seq<bool>)
    requires |facts| == |batch|
    requires forall i :: 0 <= i < |batch| ==> R.Narrow(batch[i].schedule.zone)
    requires forall i, j :: 0 <= i < j < |batch| ==> batch[i] != batch[j]
    modifies batch
    ensures forall i :: 0 <= i < |batch| ==>
              batch[i].Value() == Dispatched(R.Line(batch[i].schedule), old(batch[i].Value()), old(batch[i].nextAt), now, facts[i])
    ensures |accepted| == |batch| && queued == Count(accepted)
    ensures forall i :: 0 <= i < |batch| ==> (accepted[i] <==> batch[i].runs != old(batch[i].runs))
  {
    hide Dispatched, R.Narrow;
    queued, accepted := 0, [];
    for n := 0 to |batch|
      invariant forall i :: n <= i < |batch| ==> unchanged(batch[i])
      invariant forall i :: 0 <= i < n ==>
                  batch[i].Value() == Dispatched(R.Line(batch[i].schedule), old(batch[i].Value()), old(batch[i].nextAt), now, facts[i])
      invariant |accepted| == n && queued == Count(accepted)
      invariant forall i :: 0 <= i < n ==> (accepted[i] <==> batch[i].runs != old(batch[i].runs))
    {
      var done := Turn(batch[n], now, facts[n]);
      ghost var earlier := accepted;
      accepted := accepted + [done];
      assert accepted[..n] == earlier;
      if done { queued := queued + 1; }
    }
  }

  /** The selecting query of a pass. */
  method ReadDue(digests: seq<Digest>, active: seq<bool>, now: int) returns (ids: seq<nat>)
    requires |active| == |digests|
    ensures |ids| <= BATCH && Selected(Values(digests), active, now, ids)
    ensures |ids| < BATCH ==> forall i :: 0 <= i < |digests| && Eligible(Values(digests)[i], active[i], now) ==> i in ids
  {
    hide Selected, Eligible;
    var rows: seq<Row> := [];
    for i := 0 to |digests|
      invariant rows == Values(digests)[..i]
    {
      rows := rows + [Row(digests[i].nextAt, digests[i].paused, digests[i].retryAt, digests[i].runs)];
    }
    assert rows == Values(digests);
    ids := SelectDue(rows, active, now);
  }

  lemma SelectedOnce(rows: seq<Row>, active: seq<bool>, now: int, ids: seq<nat>)
    requires |active| == |rows| && Selected(rows, active, now, ids)
    ensures forall k :: 0 <= k < |ids| ==> ids[k] < |rows|
    ensures forall j, k :: 0 <= j < k < |ids| ==> ids[j] != ids[k]
  {
  }

  method Pick<T>(all: seq<T>, ids: seq<nat>) returns (picked: seq<T>)
    requires forall k :: 0 <= k < |ids| ==> ids[k] < |all|
    ensures |picked| == |ids| && forall k :: 0 <= k < |ids| ==> picked[k] == all[ids[k]]
  {
    picked := [];
    for n := 0 to |ids|
      invariant |picked| == n && forall k :: 0 <= k < n ==> picked[k] == all[ids[k]]
    {
      picked := picked + [all[ids[n]]];
    }
  }

  method DispatchSelected(digests: seq<Digest>, ids: seq<nat>, now: int, facts: seq<Facts>)
    returns (queued: nat, ghost accepted: seq<bool>)
    requires |facts| == |digests|
    requires forall i :: 0 <= i < |digests| ==> R.Narrow(digests[i].schedule.zone)
    requires forall i, j :: 0 <= i < j < |digests| ==> digests[i] != digests[j]
    requires forall k :: 0 <= k < |ids| ==> ids[k] < |digests|
    requires forall j, k :: 0 <= j < k < |ids| ==> ids[j] != ids[k]
    modifies digests
    ensures forall i :: 0 <= i < |digests| && i !in ids ==> unchanged(digests[i])
    ensures forall k :: 0 <= k < |ids| ==>
              var d := digests[ids[k]];
              d.Value() == Dispatched(R.Line(d.schedule), old(d.Value()), old(d.nextAt), now, facts[ids[k]])
    ensures |accepted| == |ids| && queued == Count(accepted)
    ensures forall k :: 0 <= k < |ids| ==> (accepted[k] <==> digests[ids[k]].runs != old(digests[ids[k]].runs))
  {
    hide Dispatched, R.Narrow, Count;
    var batch := Pick(digests, ids);
    var mine := Pick(facts, ids);
    queued, accepted := DispatchAll(batch, now, mine);
  }

  /** One pass of a dispatcher: it selects, and every selected digest takes exactly its own step. */
  method Tick(digests: seq<Digest>, active: seq<bool>, now: int, facts: seq<Facts>)
    returns (queued: nat, ids: seq<nat>, ghost accepted: seq<bool>)
    requires |facts| == |active| == |digests|
    requires forall i :: 0 <= i < |digests| ==> R.Narrow(digests[i].schedule.zone)
    requires forall i, j :: 0 <= i < j < |digests| ==> digests[i] != digests[j]
    modifies digests
    ensures |ids| <= BATCH && Selected(old(Values(digests)), active, now, ids)
    ensures |ids| < BATCH ==>
              forall i :: 0 <= i < |digests| && Eligible(old(digests[i].Value()), active[i], now) ==> i in ids
    ensures forall k :: 0 <= k < |ids| ==> 0 <= ids[k] < |digests|
    ensures forall i :: 0 <= i < |digests| && i !in ids ==> unchanged(digests[i])
    ensures forall k :: 0 <= k < |ids| ==>
              var d := digests[ids[k]];
              d.Value() == Dispatched(R.Line(d.schedule), old(d.Value()), old(d.nextAt), now, facts[ids[k]])
    ensures |accepted| == |ids| && queued == Count(accepted)
    ensures forall k :: 0 <= k < |ids| ==> (accepted[k] <==> digests[ids[k]].runs != old(digests[ids[k]].runs))
  {
    hide Dispatched, R.Narrow, Eligible, Count;
    ids := ReadDue(digests, active, now);
    SelectedOnce(Values(digests), active, now, ids);
    hide Selected;
    queued, accepted := DispatchSelected(digests, ids, now, facts);
  }

  datatype Event = Event(seen: Option<int>, now: int, facts: Facts)

  ghost function Run(l: Timeline, r: Row, events: seq<Event>): Row
    requires Increasing(l)
    decreases |events|
  {
    if events == [] then r
    else Run(l, Dispatched(l, r, events[0].seen, events[0].now, events[0].facts), events[1..])
  }

  /** What every dispatcher keeps about one saved schedule: the cursor is null or an occurrence, and
      the queued times are strictly increasing occurrences, all before the cursor. */
  ghost predicate Orderly(l: Timeline, r: Row) {
    && (r.nextAt.Some? ==> IsOccurrence(l, r.nextAt.value))
    && (forall k :: 0 <= k < |r.runs| ==> IsOccurrence(l, r.runs[k]))
    && (forall k, m :: 0 <= k < m < |r.runs| ==> r.runs[k] < r.runs[m])
    && (r.nextAt.Some? ==> forall k :: 0 <= k < |r.runs| ==> r.runs[k] < r.nextAt.value)
  }

  lemma FreshIsOrderly(l: Timeline, now: int)
    requires Increasing(l)
    ensures Orderly(l, Row(Upcoming(l, now), false, None, []))
  {
    if !Expired(l, now) { UpcomingExact(l, now); }
  }

  /** One step: an accepted run is for an occurrence not before the cursor and moves the cursor
      strictly on; every other step leaves the queue alone and never moves the cursor back. */
  lemma StepAdvances(l: Timeline, r: Row, e: Event)
    requires Increasing(l) && Orderly(l, r)
    ensures var q := Dispatched(l, r, e.seen, e.now, e.facts);
            && Orderly(l, q)
            && (q.runs == r.runs || (r.nextAt.Some? && |q.runs| == |r.runs| + 1 && q.runs[..|r.runs|] == r.runs
                                     && r.nextAt.value <= q.runs[|r.runs|] <= e.now))
            && (r.nextAt.None? ==> q.nextAt.None? && q.runs == r.runs)
            && (q.nextAt.Some? ==> r.nextAt.value <= q.nextAt.value)
            && (q.runs != r.runs && q.nextAt.Some? ==> r.nextAt.value < q.nextAt.value)
  {
    if IsDue(r.nextAt, e.now) && r.nextAt == e.seen && !Expired(l, e.now) {
      var i: nat :| l.at(i) == r.nextAt.value;
      if 0 < i { assert l.at(0) < l.at(i); }
      LatestDueExact(l, e.now);
      UpcomingExact(l, e.now);
      hide LatestDue, Upcoming;
      assert r.nextAt.value <= LatestDue(l, e.now).value;
    }
  }

  /** A refused or conflicting dispatch leaves the occurrence due and the queue as it was. */
  lemma RefusalKeepsTheOccurrenceDue(l: Timeline, r: Row, e: Event)
    requires Increasing(l) && Orderly(l, r) && !Expired(l, e.now)
    requires !e.facts.admission.Admitted?
    ensures var q := Dispatched(l, r, e.seen, e.now, e.facts); q.nextAt == r.nextAt && q.runs == r.runs
  {
    if IsDue(r.nextAt, e.now) {
      var i: nat :| l.at(i) == r.nextAt.value;
      if 0 < i { assert l.at(0) < l.at(i); }
      LatestDueExact(l, e.now);
    }
  }

  /** No run of any number of dispatchers repeats or reorders an occurrence. */
  lemma {:induction false} DispatchNeverRepeats(l: Timeline, r: Row, events: seq<Event>)
    requires Increasing(l) && Orderly(l, r)
    ensures Orderly(l, Run(l, r, events))
    ensures r.runs <= Run(l, r, events).runs
    ensures r.nextAt.Some? && Run(l, r, events).nextAt.Some? ==> r.nextAt.value <= Run(l, r, events).nextAt.value
    ensures r.nextAt.None? ==> Run(l, r, events).nextAt.None?
    decreases |events|
  {
    if events != [] {
      StepAdvances(l, r, events[0]);
      DispatchNeverRepeats(l, Dispatched(l, r, events[0].seen, events[0].now, events[0].facts), events[1..]);
    }
  }

  /** Occurrences from `origin` on that the cursor has passed. */
  ghost predicate Passed(l: Timeline, r: Row, origin: int, t: int) {
    IsOccurrence(l, t) && origin <= t && (r.nextAt.Some? ==> t < r.nextAt.value)
  }

  /** Every passed occurrence was queued, or is older than one that was. */
  ghost predicate Covered(l: Timeline, r: Row, origin: int) {
    forall t :: Passed(l, r, origin, t) ==> exists k :: 0 <= k < |r.runs| && t <= r.runs[k]
  }

  lemma StepCovers(l: Timeline, r: Row, e: Event, origin: int)
    requires Increasing(l) && Orderly(l, r) && Covered(l, r, origin) && !Expired(l, e.now)
    ensures Covered(l, Dispatched(l, r, e.seen, e.now, e.facts), origin)
  {
    hide LatestDue, Upcoming;
    var q := Dispatched(l, r, e.seen, e.now, e.facts);
    StepAdvances(l, r, e);
    if q.nextAt != r.nextAt {
      LatestDueExact(l, e.now);
      UpcomingExact(l, e.now);
      var i: nat :| l.at(i) == r.nextAt.value;
      if 0 < i { assert l.at(0) < l.at(i); }
    }
    forall t | Passed(l, q, origin, t)
      ensures exists k :: 0 <= k < |q.runs| && t <= q.runs[k]
    {
      if Passed(l, r, origin, t) {
        var k :| 0 <= k < |r.runs| && t <= r.runs[k];
        assert t <= q.runs[k];
      } else {
        assert t <= q.runs[|r.runs|];
      }
    }
  }

  /** Before the cutoff nothing is lost: coalescing only ever skips occurrences older than a queued one. */
  lemma {:induction false} OnlyOlderOccurrencesAreSkipped(l: Timeline, r: Row, events: seq<Event>, origin: int)
    requires Increasing(l) && Orderly(l, r) && Covered(l, r, origin)
    requires forall e <- events :: !Expired(l, e.now)
    ensures Covered(l, Run(l, r, events), origin)
    decreases |events|
  {
    if events != [] {
      StepAdvances(l, r, events[0]);
      StepCovers(l, r, events[0], origin);
      OnlyOlderOccurrencesAreSkipped(l, Dispatched(l, r, events[0].seen, events[0].now, events[0].facts), events[1..], origin);
    }
  }

  // ---- Preview ----

  ghost function DatesFrom(l: Timeline, candidate: Option<int>, n: nat): seq<int>
    requires Increasing(l)
    decreases n
  {
    if n == 0 || candidate.None? || !BeforeEnd(l, candidate.value) then []
    else [candidate.value] + DatesFrom(l, Upcoming(l, candidate.value), n - 1)
  }

  ghost function Previewed(l: Timeline, cursor: Option<int>, now: int): seq<int>
    requires Increasing(l)
  {
    if cursor.None? || Expired(l, now) then []
    else
      var candidate := if cursor.value <= now then LatestDue(l, now) else cursor;
      if candidate.Some? && cursor.value <= candidate.value then DatesFrom(l, candidate, PREVIEW_LENGTH) else []
  }

  lemma DatesUnfold(l: Timeline, prefix: seq<int>, candidate: Option<int>, n: nat)
    requires Increasing(l)
    ensures prefix + DatesFrom(l, candidate, n) ==
            if n == 0 || candidate.None? || !BeforeEnd(l, candidate.value) then prefix
            else (prefix + [candidate.value]) + DatesFrom(l, Upcoming(l, candidate.value), n - 1)
  {
    hide Upcoming, BeforeEnd;
  }

  /** The occurrences around an instant, as the timeline has them. */
  method Neighbours(s: R.Schedule, t: int) returns (latest: Option<int>, next: Option<int>)
    requires R.Narrow(s.zone)
    ensures latest == LatestDue(R.Line(s), t) && next == Upcoming(R.Line(s), t)
  {
    latest, next := R.Around(s, t);
  }

  method SchedulePreview(s: R.Schedule, cursor: Option<int>, now: int) returns (dates: seq<int>)
    requires R.Narrow(s.zone)
    ensures dates == Previewed(R.Line(s), cursor, now)
  {
    hide R.Line, LatestDue, Upcoming, DatesFrom;
    dates := [];
    if cursor.None? || (s.endsAt.Some? && now >= s.endsAt.value) { return; }
    var candidate := cursor;
    if cursor.value <= now {
      var latest, following := Neighbours(s, now);
      candidate := latest;
    }
    if candidate.None? || candidate.value < cursor.value { return; }
    ghost var expected := DatesFrom(R.Line(s), candidate, PREVIEW_LENGTH);
    while |dates| < PREVIEW_LENGTH && candidate.Some?
      invariant |dates| <= PREVIEW_LENGTH
      invariant dates + DatesFrom(R.Line(s), candidate, PREVIEW_LENGTH - |dates|) == expected
      decreases PREVIEW_LENGTH - |dates|
    {
      DatesUnfold(R.Line(s), dates, candidate, PREVIEW_LENGTH - |dates|);
      if s.endsAt.Some? && candidate.value >= s.endsAt.value { return; }
      dates := dates + [candidate.value];
      var latest, following := Neighbours(s, candidate.value);
      candidate := following;
    }
    DatesUnfold(R.Line(s), dates, candidate, PREVIEW_LENGTH - |dates|);
  }

  /** Dispatches that succeed at the given times, one after the other. */
  ghost function Successes(l: Timeline, r: Row, times: seq<int>): Row
    requires Increasing(l)
    decreases |times|
  {
    if times == [] then r
    else Successes(l, Dispatched(l, r, r.nextAt, times[0], Facts(false, true, Admitted)), times[1..])
  }

  /** Each time falls in the interval from its date to the next occurrence, before the cutoff. */
  ghost predicate OnePerInterval(l: Timeline, dates: seq<int>, times: seq<int>)
    requires Increasing(l)
  {
    && |times| == |dates|
    && forall k :: 0 <= k < |dates| ==>
         && dates[k] <= times[k] && BeforeEnd(l, times[k])
         && (Upcoming(l, dates[k]).Some? ==> times[k] < Upcoming(l, dates[k]).value)
  }

  lemma {:induction false} DatesAreDispatched(l: Timeline, r: Row, d: Option<int>, n: nat, times: seq<int>)
    requires Increasing(l) && r.nextAt.Some? == d.Some? && !r.paused
    requires d.Some? ==> IsOccurrence(l, d.value) && r.nextAt.value <= d.value
    requires OnePerInterval(l, DatesFrom(l, d, n), times)
    ensures Successes(l, r, times).runs == r.runs + DatesFrom(l, d, n)
    decreases n
  {
    hide LatestDue, Upcoming, IsOccurrence, Increasing;
    var dates := DatesFrom(l, d, n);
    if dates != [] {
      var next := Upcoming(l, d.value);
      var rest := DatesFrom(l, next, n - 1);
      assert dates == [d.value] + rest;
      assert OnePerInterval(l, rest, times[1..]) by {
        forall k | 0 <= k < |rest| ensures rest[k] == dates[k + 1] && times[1..][k] == times[k + 1] {}
      }
      assert dates[0] <= times[0];
      DueUntilNext(l, d.value, times[0]);
      UpcomingExact(l, d.value);
      var q := Dispatched(l, r, r.nextAt, times[0], Facts(false, true, Admitted));
      DatesAreDispatched(l, q, next, n - 1, times[1..]);
      assert r.runs + dates == (r.runs + [d.value]) + rest;
    }
  }

  /** The preview predicts dispatch: a dispatcher that succeeds once in each interval queues exactly
      the previewed dates, in order. */
  lemma PreviewPredictsDispatch(l: Timeline, r: Row, now: int, times: seq<int>)
    requires Increasing(l) && Orderly(l, r) && !r.paused
    requires OnePerInterval(l, Previewed(l, r.nextAt, now), times)
    ensures Successes(l, r, times).runs == r.runs + Previewed(l, r.nextAt, now)
  {
    if r.nextAt.Some? && !Expired(l, now) {
      var i: nat :| l.at(i) == r.nextAt.value;
      if 0 < i { assert l.at(0) < l.at(i); }
      LatestDueExact(l, now);
      DatesAreDispatched(l, r, if r.nextAt.value <= now then LatestDue(l, now) else r.nextAt, PREVIEW_LENGTH, times);
    }
  }

  lemma NoneBetween(l: Timeline, d: int, t: int)
    requires Increasing(l) && BeforeEnd(l, d) && IsOccurrence(l, t) && d < t
    ensures Upcoming(l, d).Some? && Upcoming(l, d).value <= t
  {
    UpcomingExact(l, d);
  }

  /** Consecutive occurrences; at most `n`, and fewer only if there is no further one. */
  ghost predicate Consecutive(l: Timeline, dates: seq<int>, n: nat) {
    && |dates| <= n
    && (forall k :: 0 <= k < |dates| ==> IsOccurrence(l, dates[k]))
    && (forall k :: 0 < k < |dates| ==> dates[k - 1] < dates[k])
    && (forall k, t :: 0 < k < |dates| && IsOccurrence(l, t) && dates[k - 1] < t ==> dates[k] <= t)
    && (|dates| < n && dates != [] ==> forall t :: IsOccurrence(l, t) ==> t <= dates[|dates| - 1])
  }

  lemma {:induction false} DatesAreConsecutive(l: Timeline, d: Option<int>, n: nat)
    requires Increasing(l) && (d.Some? ==> IsOccurrence(l, d.value))
    ensures Consecutive(l, DatesFrom(l, d, n), n)
    decreases n
  {
    hide Increasing, LatestDue, Upcoming;
    if n > 0 && d.Some? {
      var next := Upcoming(l, d.value);
      var rest := DatesFrom(l, next, n - 1);
      assert DatesFrom(l, d, n) == [d.value] + rest;
      UpcomingExact(l, d.value);
      DatesAreConsecutive(l, next, n - 1);
      hide IsOccurrence;
      forall t | IsOccurrence(l, t) && d.value < t ensures next.Some? && next.value <= t {
        NoneBetween(l, d.value, t);
      }
    }
  }

  /** The preview is empty only without a cursor or after the cutoff. Otherwise it starts at the cursor, or at the
      latest occurrence by now if the cursor is due, and lists consecutive occurrences below the cutoff, fewer
      than three only if there is no further one. */
  lemma PreviewIsConsecutive(l: Timeline, cursor: Option<int>, now: int)
    requires Increasing(l) && (cursor.Some? ==> IsOccurrence(l, cursor.value))
    ensures var dates := Previewed(l, cursor, now);
            && Consecutive(l, dates, 3)
            && (dates == [] <==> cursor.None? || Expired(l, now))
            && (dates != [] ==>
                  if cursor.value <= now
                  then cursor.value <= dates[0] <= now && forall t :: IsOccurrence(l, t) && t <= now ==> t <= dates[0]
                  else dates[0] == cursor.value)
  {
    if cursor.Some? && !Expired(l, now) {
      LatestDueExact(l, now);
      UpcomingExact(l, now);
      var i: nat :| l.at(i) == cursor.value;
      if 0 < i { assert l.at(0) < l.at(i); }
      DatesAreConsecutive(l, if cursor.value <= now then LatestDue(l, now) else cursor, PREVIEW_LENGTH);
    }
  }
}
