/** A strictly increasing sequence of instants with an exclusive end, and the instants around a
    given one. Every schedule gives such a timeline; dispatch and preview need nothing more. */
module Timelines {
  import opened Prelude

  datatype Timeline = Timeline(at: nat -> int, endsAt: Option<int>)

  ghost predicate Increasing(l: Timeline) {
    forall i: nat, j: nat :: i < j ==> l.at(i) < l.at(j)
  }

  predicate Expired(l: Timeline, now: int) { l.endsAt.Some? && l.endsAt.value <= now }

  predicate BeforeEnd(l: Timeline, t: int) { l.endsAt.None? || t < l.endsAt.value }

  /** An instant of the timeline before its end. */
  ghost predicate IsOccurrence(l: Timeline, t: int) {
    (exists i: nat :: l.at(i) == t) && BeforeEnd(l, t)
  }

  /** `now` lies between instants `i` and `i + 1`. */
  ghost predicate Straddles(l: Timeline, now: int, i: nat) {
    l.at(i) <= now < l.at(i + 1)
  }

  lemma {:induction false} Unbounded(l: Timeline, n: nat)
    requires Increasing(l)
    ensures l.at(0) + n <= l.at(n)
    decreases n
  {
    if n > 0 {
      Unbounded(l, n - 1);
    }
  }

  lemma {:induction false} StraddleExists(l: Timeline, now: int, bound: nat)
    requires l.at(0) <= now < l.at(bound)
    ensures exists i: nat :: Straddles(l, now, i)
    decreases bound
  {
    assert bound != 0;
    if l.at(bound - 1) <= now {
      assert Straddles(l, now, bound - 1);
    } else {
      StraddleExists(l, now, bound - 1);
    }
  }

  ghost function CurrentIndex(l: Timeline, now: int): (i: nat)
    requires Increasing(l) && l.at(0) <= now
    ensures Straddles(l, now, i)
  {
    Unbounded(l, now - l.at(0) + 1);
    StraddleExists(l, now, now - l.at(0) + 1);
    var i: nat :| Straddles(l, now, i);
    i
  }

  /** The latest instant at or before `now`, nothing once the timeline has ended. */
  ghost function LatestDue(l: Timeline, now: int): Option<int>
    requires Increasing(l)
  {
    if Expired(l, now) || now < l.at(0) then None else Some(l.at(CurrentIndex(l, now)))
  }

  /** The first instant after `now`, if it comes before the exclusive end. */
  ghost function Upcoming(l: Timeline, now: int): Option<int>
    requires Increasing(l)
  {
    var next := if now < l.at(0) then l.at(0) else l.at(CurrentIndex(l, now) + 1);
    if Expired(l, now) || !BeforeEnd(l, next) then None else Some(next)
  }

  lemma StraddleUnique(l: Timeline, now: int, i: nat, j: nat)
    requires Increasing(l) && Straddles(l, now, i) && Straddles(l, now, j)
    ensures i == j
  {
  }

  /** `LatestDue` is the greatest instant not after `now` ... */
  lemma LatestDueExact(l: Timeline, now: int)
    requires Increasing(l) && !Expired(l, now)
    ensures LatestDue(l, now).None? <==> now < l.at(0)
    ensures LatestDue(l, now).Some? ==>
              && IsOccurrence(l, LatestDue(l, now).value)
              && LatestDue(l, now).value <= now
              && forall j: nat :: l.at(j) <= now ==> l.at(j) <= LatestDue(l, now).value
  {
    if l.at(0) <= now {
      var i := CurrentIndex(l, now);
      assert forall j: nat :: l.at(j) <= now ==> j < i + 1;
    }
  }

  /** ... and `Upcoming` is the least instant after `now` that the end does not exclude. */
  lemma UpcomingExact(l: Timeline, now: int)
    requires Increasing(l) && !Expired(l, now)
    ensures Upcoming(l, now).Some? ==>
              && IsOccurrence(l, Upcoming(l, now).value)
              && now < Upcoming(l, now).value
              && forall j: nat :: now < l.at(j) ==> Upcoming(l, now).value <= l.at(j)
    ensures Upcoming(l, now).None? ==> forall j: nat :: now < l.at(j) ==> !BeforeEnd(l, l.at(j))
  {
    if l.at(0) <= now {
      var i := CurrentIndex(l, now);
      assert forall j: nat :: now < l.at(j) ==> i < j;
    } else {
      forall j: nat ensures l.at(0) <= l.at(j) {
        if 0 < j { assert l.at(0) < l.at(j); }
      }
    }
  }

  /** Between an instant and the next one (or the end), that instant is the one due. */
  lemma DueUntilNext(l: Timeline, d: int, t: int)
    requires Increasing(l) && IsOccurrence(l, d) && d <= t && BeforeEnd(l, t)
    requires Upcoming(l, d).Some? ==> t < Upcoming(l, d).value
    ensures LatestDue(l, t) == Some(d) && Upcoming(l, t) == Upcoming(l, d)
  {
    var i: nat :| l.at(i) == d;
    if 0 < i { assert l.at(0) < l.at(i); }
    assert Straddles(l, d, i);
    StraddleUnique(l, d, i, CurrentIndex(l, d));
    assert Straddles(l, t, i);
    StraddleUnique(l, t, i, CurrentIndex(l, t));
  }
}
