/** The durable inbox of billing events: claims with a token and a deadline, retries with backoff, and
    effects that commit together with the job.

    Every event is one transaction; a transaction that crashes did not happen. `max` is the configured
    number of failures after which a job needs an operator. Times are those the acting process reads. */
module BillingInbox {
  import opened Prelude

  const LEASE_SECONDS := 120
  const FIRST_DELAY := 30
  const LONGEST_DELAY := 3_600

  datatype Kind = Webhook | Reconcile

  datatype Progress = Pending | Processing | Retrying | Failed | Processed

  datatype Job = Job(kind: Kind, progress: Progress, token: Option<nat>, lease: Option<int>, attempts: nat, failures: nat,
                     manualRetries: nat, next: Option<int>, createdAt: int)

  /** `markers` are the processed-event markers; `effects` counts, for each event, how often its canonical
      observation was committed. */
  datatype State = State(jobs: map<nat, Job>, markers: set<nat>, effects: map<nat, nat>)

  datatype Event =
    | Receive(id: nat, kind: Kind, at: int)
    | Claim(id: nat, token: nat, at: int)
    | Succeed(id: nat, token: nat, first: int, second: int, closing: bool, following: Option<int>)
    | Stumble(id: nat, token: nat, first: int, second: int)
    | RetryByHand(id: nat, at: int)

  const EMPTY := State(map[], {}, map[])

  function Times(s: State, id: nat): nat { if id in s.effects then s.effects[id] else 0 }

  predicate Due(j: Job, at: int) {
    || (j.progress in {Pending, Retrying, Processed} && j.next.Some? && j.next.value <= at)
    || (j.progress.Processing? && j.lease.Some? && j.lease.value <= at)
  }

  predicate Owned(s: State, id: nat, token: nat, at: int) {
    && id in s.jobs && s.jobs[id].progress.Processing? && s.jobs[id].token == Some(token)
    && s.jobs[id].lease.Some? && at < s.jobs[id].lease.value
  }

  function Power(n: nat): nat { if n == 0 then 1 else 2 * Power(n - 1) }

  /** Seconds to wait after the n-th failure in a row. */
  function Backoff(failures: nat): nat
    requires failures >= 1
  {
    var delay := FIRST_DELAY * Power(failures - 1);
    if LONGEST_DELAY < delay then LONGEST_DELAY else delay
  }

  predicate Retryable(j: Job, at: int) {
    || j.progress in {Failed, Retrying}
    || (j.kind.Reconcile? && j.progress.Processed?)
    || (j.progress.Processing? && j.lease.Some? && j.lease.value <= at)
  }

  function Step(s: State, e: Event, max: nat): State {
    match e
    case Receive(id, kind, at) =>
      if id in s.jobs then s else s.(jobs := s.jobs[id := Job(kind, Pending, None, None, 0, 0, 0, Some(at), at)])
    case Claim(id, token, at) =>
      if id !in s.jobs || !Due(s.jobs[id], at) then s
      else
        var j := s.jobs[id];
        s.(jobs := s.jobs[id := j.(progress := Processing, token := Some(token), lease := Some(at + LEASE_SECONDS),
                                   attempts := j.attempts + 1)])
    case Succeed(id, token, first, second, closing, following) =>
      if !Owned(s, id, token, first) then s
      else if closing then
        s.(jobs := s.jobs[id := s.jobs[id].(progress := Processed, next := None, token := None, lease := None)])
      else if !Owned(s, id, token, second) then s
      else
        var j := s.jobs[id];
        var done := s.(jobs := s.jobs[id := j.(progress := Processed, failures := 0, token := None, lease := None,
                                               next := if j.kind.Webhook? then None else following)]);
        if j.kind.Webhook? && id !in s.markers
        then done.(markers := s.markers + {id}, effects := s.effects[id := Times(s, id) + 1])
        else done
    case Stumble(id, token, first, second) =>
      if !Owned(s, id, token, first) || !Owned(s, id, token, second) then s
      else
        var j := s.jobs[id];
        var failures := j.failures + 1;
        s.(jobs := s.jobs[id := j.(failures := failures, token := None, lease := None,
                                   progress := if max <= failures then Failed else Retrying,
                                   next := if max <= failures then None else Some(second + Backoff(failures)))])
    case RetryByHand(id, at) =>
      if id !in s.jobs || !Retryable(s.jobs[id], at) then s
      else
        var j := s.jobs[id];
        s.(jobs := s.jobs[id := j.(progress := Pending, failures := 0, next := Some(at), token := None, lease := None,
                                   manualRetries := j.manualRetries + 1)])
  }

  function Play(s: State, es: seq<Event>, max: nat): State
    decreases |es|
  {
    if es == [] then s else Play(Step(s, es[0], max), es[1..], max)
  }

  // ---- What every history keeps ----

  ghost predicate JobOk(j: Job, max: nat) {
    && (j.progress.Processing? <==> j.token.Some?) && (j.token.Some? <==> j.lease.Some?)
    && j.failures <= max && (j.progress.Failed? <==> j.failures == max)
    && (j.progress.Pending? || j.progress.Retrying? ==> j.next.Some?)
    && (j.progress.Failed? || (j.progress.Processed? && j.kind.Webhook?) ==> j.next.None?)
  }

  ghost predicate Inv(s: State, max: nat) {
    && max >= 1
    && (forall id <- s.jobs.Keys :: JobOk(s.jobs[id], max))
    && (forall id :: Times(s, id) == if id in s.markers then 1 else 0)
    && (forall id <- s.markers :: id in s.jobs && s.jobs[id].kind.Webhook? && s.jobs[id].progress.Processed?)
  }

  lemma StepKeepsInv(s: State, e: Event, max: nat)
    requires Inv(s, max)
    ensures Inv(Step(s, e, max), max)
  {
    hide Backoff;
  }

  lemma {:induction false} HistoryKeepsInv(s: State, es: seq<Event>, max: nat)
    requires Inv(s, max)
    ensures Inv(Play(s, es, max), max)
    decreases |es|
  {
    if es != [] {
      StepKeepsInv(s, es[0], max);
      HistoryKeepsInv(Step(s, es[0], max), es[1..], max);
    }
  }

  predicate Finished(s: State, id: nat) {
    id in s.jobs && s.jobs[id].kind.Webhook? && s.jobs[id].progress.Processed?
  }

  /** The account is closing: the job is put away without being applied. */
  predicate Closes(s: State, e: Event, id: nat) {
    e.Succeed? && e.id == id && e.closing && Owned(s, id, e.token, e.first)
  }

  /** The job was put away somewhere in the history. */
  predicate ClosedIn(s: State, es: seq<Event>, max: nat, id: nat)
    decreases |es|
  {
    es != [] && (Closes(s, es[0], id) || ClosedIn(Step(s, es[0], max), es[1..], max, id))
  }

  /** For a webhook, observation, marker and processed state change together or not at all, and only in a
      success of the token holder whose deadline had not passed at either check. The one exception is a job
      put away because its account is closing: it is processed without effect or marker. */
  lemma EffectsCommitWithTheJob(s: State, e: Event, max: nat, id: nat)
    requires Inv(s, max)
    ensures var t := Step(s, e, max);
            var applied := Times(t, id) != Times(s, id);
            && (applied <==> (id in t.markers) != (id in s.markers))
            && (applied <==> Finished(t, id) != Finished(s, id) && !Closes(s, e, id))
            && (applied ==> Times(t, id) == 1 && Finished(t, id) && e.Succeed? && e.id == id
                            && Owned(s, id, e.token, e.first) && Owned(s, id, e.token, e.second))
  {
    hide Backoff;
  }

  /** A finished webhook has its marker exactly if it was not put away. */
  ghost predicate Accounted(s: State, id: nat, closed: bool) {
    && (id !in s.jobs ==> !closed)
    && (Finished(s, id) ==> (id in s.markers <==> !closed))
    && (id in s.jobs && s.jobs[id].kind.Webhook? && closed ==> Finished(s, id))
  }

  lemma StepKeepsAccounted(s: State, e: Event, max: nat, id: nat, closed: bool)
    requires Inv(s, max) && Accounted(s, id, closed)
    ensures Accounted(Step(s, e, max), id, closed || Closes(s, e, id))
  {
    hide Backoff;
  }

  lemma {:induction false} HistoryKeepsAccounted(s: State, es: seq<Event>, max: nat, id: nat, closed: bool)
    requires Inv(s, max) && Accounted(s, id, closed)
    ensures Accounted(Play(s, es, max), id, closed || ClosedIn(s, es, max, id))
    decreases |es|
  {
    if es != [] {
      StepKeepsInv(s, es[0], max);
      StepKeepsAccounted(s, es[0], max, id, closed);
      hide Inv, Step, Closes, Accounted;
      HistoryKeepsAccounted(Step(s, es[0], max), es[1..], max, id, closed || Closes(s, es[0], id));
    }
  }

  /** Exactly once: in every history an event's effects were committed once if its webhook was processed
      and not put away with a closing account, and otherwise not at all; its marker says which. */
  lemma EffectsExactlyOnce(es: seq<Event>, max: nat, id: nat)
    requires max >= 1
    ensures var t := Play(EMPTY, es, max);
            && Times(t, id) == (if Finished(t, id) && !ClosedIn(EMPTY, es, max, id) then 1 else 0)
            && (id in t.markers <==> Times(t, id) == 1)
  {
    HistoryKeepsInv(EMPTY, es, max);
    HistoryKeepsAccounted(EMPTY, es, max, id, false);
    hide Play, ClosedIn, JobOk;
  }

  /** A processed webhook is final under duplicate delivery, late workers and manual retries. */
  lemma {:induction false} ProcessedWebhookIsFinal(s: State, es: seq<Event>, max: nat, id: nat)
    requires Inv(s, max) && id in s.jobs && s.jobs[id].kind.Webhook? && s.jobs[id].progress.Processed?
    ensures var t := Play(s, es, max);
            id in t.jobs && t.jobs[id] == s.jobs[id] && Times(t, id) == Times(s, id)
    decreases |es|
  {
    if es != [] {
      StepKeepsInv(s, es[0], max);
      ProcessedWebhookIsFinal(Step(s, es[0], max), es[1..], max, id);
    }
  }

  // ---- Fencing ----

  predicate ActsWith(e: Event, id: nat, token: nat) {
    (e.Succeed? && e.id == id && e.token == token) || (e.Stumble? && e.id == id && e.token == token)
  }

  function Without(es: seq<Event>, id: nat, token: nat): seq<Event>
    decreases |es|
  {
    if es == [] then []
    else if ActsWith(es[0], id, token) then Without(es[1..], id, token)
    else [es[0]] + Without(es[1..], id, token)
  }

  /** A worker whose token was replaced can change nothing any more: tokens are never reused, so the
      history is the one without its attempts. */
  lemma {:induction false} ReplacedTokenIsFenced(s: State, es: seq<Event>, max: nat, id: nat, token: nat)
    requires id in s.jobs ==> s.jobs[id].token != Some(token)
    requires forall e <- es :: !(e.Claim? && e.id == id && e.token == token)
    ensures Play(s, es, max) == Play(s, Without(es, id, token), max)
    decreases |es|
  {
    if es != [] {
      var t := Step(s, es[0], max);
      assert id in t.jobs ==> t.jobs[id].token != Some(token);
      ReplacedTokenIsFenced(t, es[1..], max, id, token);
      if !ActsWith(es[0], id, token) {
        assert Without(es, id, token)[1..] == Without(es[1..], id, token);
      }
    }
  }

  // ---- Retries ----

  /** Delays start at half a minute, never shrink and never pass an hour. */
  lemma {:induction false} BackoffGrows(failures: nat)
    requires failures >= 1
    ensures FIRST_DELAY <= Backoff(failures) <= Backoff(failures + 1) <= LONGEST_DELAY
    ensures Backoff(1) == 30 && Backoff(failures + 1) == if 2 * Backoff(failures) < 3_600 then 2 * Backoff(failures) else 3_600
  {
    PowerPositive(failures - 1);
    assert Power(failures) == 2 * Power(failures - 1);
  }

  lemma {:induction false} PowerPositive(n: nat)
    ensures Power(n) >= 1
  {
    if n > 0 { PowerPositive(n - 1); }
  }

  function Count(es: seq<Event>, id: nat): nat
    decreases |es|
  {
    if es == [] then 0
    else Count(es[1..], id) + (if es[0].Stumble? && es[0].id == id then 1 else 0)
  }

  /** Without success or manual retry in between, a job fails for good after exactly `max` failures. */
  lemma {:induction false} FailuresExhaust(s: State, es: seq<Event>, max: nat, id: nat)
    requires Inv(s, max) && id in s.jobs && !s.jobs[id].progress.Failed?
    requires forall e <- es :: e.id == id ==> !e.Succeed? && !e.RetryByHand?
    ensures var t := Play(s, es, max);
            && id in t.jobs && s.jobs[id].failures <= t.jobs[id].failures <= max
            && (t.jobs[id].progress.Failed? <==> t.jobs[id].failures == max)
            && t.jobs[id].failures <= s.jobs[id].failures + Count(es, id)
    decreases |es|
  {
    HistoryKeepsInv(s, es, max);
    FailuresCounted(s, es, max, id);
  }

  lemma {:induction false} FailuresCounted(s: State, es: seq<Event>, max: nat, id: nat)
    requires id in s.jobs
    requires forall e <- es :: e.id == id ==> !e.Succeed? && !e.RetryByHand?
    ensures var t := Play(s, es, max);
            && id in t.jobs && s.jobs[id].failures <= t.jobs[id].failures
            && t.jobs[id].failures <= s.jobs[id].failures + Count(es, id)
    decreases |es|
  {
    if es != [] {
      FailuresCounted(Step(s, es[0], max), es[1..], max, id);
    }
  }

  // ---- The worker ----

  /** When a job became due: its planned time, or the end of an abandoned lease. */
  function DueSince(j: Job): int {
    if j.next.Some? then j.next.value else if j.lease.Some? then j.lease.value else 0
  }

  predicate Before(a: Job, i: nat, b: Job, k: nat) {
    || DueSince(a) < DueSince(b)
    || (DueSince(a) == DueSince(b) && (a.createdAt < b.createdAt || (a.createdAt == b.createdAt && i <= k)))
  }

  /** The job that has been due longest. */
  method NextDue(jobs: map<nat, Job>, at: int) returns (candidate: Option<nat>)
    ensures candidate.None? ==> forall k <- jobs.Keys :: !Due(jobs[k], at)
    ensures candidate.Some? ==> candidate.value in jobs && Due(jobs[candidate.value], at)
    ensures candidate.Some? ==>
              forall k <- jobs.Keys :: Due(jobs[k], at) ==> Before(jobs[candidate.value], candidate.value, jobs[k], k)
    ensures candidate.Some? ==>
              forall k <- jobs.Keys :: Due(jobs[k], at) ==>
                (if jobs[candidate.value].next.Some? then jobs[candidate.value].next.value else jobs[candidate.value].lease.value)
                <= if jobs[k].next.Some? then jobs[k].next.value else jobs[k].lease.value
  {
    candidate := None;
    var left := jobs.Keys;
    while left != {}
      invariant left <= jobs.Keys
      invariant candidate.None? ==> forall k <- jobs.Keys - left :: !Due(jobs[k], at)
      invariant candidate.Some? ==> candidate.value in jobs && Due(jobs[candidate.value], at)
      invariant candidate.Some? ==>
                  forall k <- jobs.Keys - left :: Due(jobs[k], at) ==> Before(jobs[candidate.value], candidate.value, jobs[k], k)
      decreases |left|
    {
      var k :| k in left;
      left := left - {k};
      if Due(jobs[k], at) && (candidate.None? || Before(jobs[k], k, jobs[candidate.value], candidate.value)) {
        candidate := Some(k);
      }
    }
  }

  class Inbox {
    const max: nat
    var jobs: map<nat, Job>
    var markers: set<nat>
    var effects: map<nat, nat>

    ghost function Value(): State
      reads this
    {
      State(jobs, markers, effects)
    }

    constructor (max: nat)
      requires max >= 1
      ensures this.max == max && Value() == EMPTY && Inv(Value(), max)
    {
      this.max, jobs, markers, effects := max, map[], {}, map[];
    }

    /** Persist an event once; a duplicate delivery does not reset any work. */
    method ReceiveEvent(id: nat, kind: Kind, at: int)
      modifies this
      ensures Value() == Step(old(Value()), Receive(id, kind, at), max)
      ensures markers == old(markers) && effects == old(effects)
      ensures jobs == if id in old(jobs) then old(jobs)
                      else old(jobs)[id := Job(kind, Pending, None, None, 0, 0, 0, Some(at), at)]
    {
      if id !in jobs { jobs := jobs[id := Job(kind, Pending, None, None, 0, 0, 0, Some(at), at)]; }
    }

    /** Take a candidate read before, unless somebody else was faster. */
    method ClaimJob(id: nat, token: nat, at: int) returns (claimed: bool)
      modifies this
      ensures Value() == Step(old(Value()), Claim(id, token, at), max)
      ensures claimed ==> Owned(Value(), id, token, at)
      ensures claimed <==>
                && id in old(jobs)
                && var j := old(jobs)[id];
                   if j.progress.Processing? then j.lease.Some? && j.lease.value <= at
                   else j.progress != Failed && j.next.Some? && j.next.value <= at
      ensures markers == old(markers) && effects == old(effects)
      ensures jobs == if !claimed then old(jobs)
                      else old(jobs)[id := old(jobs)[id].(progress := Processing, token := Some(token), lease := Some(at + 120),
                                                          attempts := old(jobs)[id].attempts + 1)]
    {
      if id !in jobs || !Due(jobs[id], at) { return false; }
      jobs := jobs[id := jobs[id].(progress := Processing, token := Some(token), lease := Some(at + LEASE_SECONDS),
                                   attempts := jobs[id].attempts + 1)];
      claimed := true;
    }

    /** The claim is still this worker's, and its deadline has not passed. */
    predicate StillOwned(id: nat, token: nat, at: int)
      reads this
      ensures StillOwned(id, token, at) == Owned(Value(), id, token, at)
      ensures StillOwned(id, token, at) <==>
                id in jobs && jobs[id].progress == Processing && jobs[id].token == Some(token)
                && jobs[id].lease != None && at < jobs[id].lease.value
    {
      && id in jobs && jobs[id].progress.Processing? && jobs[id].token == Some(token)
      && jobs[id].lease.Some? && jobs[id].lease.value > at
    }

    /** The working transaction: effects are staged and kept only if the claim still holds at the end. */
    method Apply(id: nat, token: nat, first: int, second: int, closing: bool, following: Option<int>) returns (committed: bool)
      modifies this
      ensures Value() == Step(old(Value()), Succeed(id, token, first, second, closing, following), max)
      ensures committed ==> id in jobs && jobs[id].progress.Processed?
      ensures committed <==> old(StillOwned(id, token, first)) && (closing || old(StillOwned(id, token, second)))
      ensures !committed ==> Value() == old(Value())
      ensures committed && closing ==>
                && jobs == old(jobs)[id := old(jobs)[id].(progress := Processed, next := None, token := None, lease := None)]
                && markers == old(markers) && effects == old(effects)
      ensures committed && !closing ==>
                var j := old(jobs)[id];
                && jobs == old(jobs)[id := j.(progress := Processed, failures := 0, token := None, lease := None,
                                              next := if j.kind.Webhook? then None else following)]
                && markers == (if j.kind.Webhook? then old(markers) + {id} else old(markers))
                && effects == if j.kind.Webhook? && id !in old(markers)
                              then old(effects)[id := (if id in old(effects) then old(effects)[id] else 0) + 1] else old(effects)
    {
      if !StillOwned(id, token, first) { return false; }
      if closing {
        jobs := jobs[id := jobs[id].(progress := Processed, next := None, token := None, lease := None)];
        return true;
      }
      var stagedMarkers, stagedEffects, next := markers, effects, following;
      if jobs[id].kind.Webhook? {
        next := None;
        if id !in markers {
          stagedMarkers := markers + {id};
          stagedEffects := effects[id := (if id in effects then effects[id] else 0) + 1];
        }
      }
      if !StillOwned(id, token, second) { return false; }
      jobs := jobs[id := jobs[id].(progress := Processed, failures := 0, token := None, lease := None, next := next)];
      markers, effects := stagedMarkers, stagedEffects;
      committed := true;
    }

    /** After a rollback, note the failure if the claim still holds. */
    method NoteFailure(id: nat, token: nat, first: int, second: int)
      modifies this
      ensures Value() == Step(old(Value()), Stumble(id, token, first, second), max)
      ensures markers == old(markers) && effects == old(effects)
      ensures !(old(StillOwned(id, token, first)) && old(StillOwned(id, token, second))) ==> jobs == old(jobs)
      ensures old(StillOwned(id, token, first)) && old(StillOwned(id, token, second)) ==>
                var j, n := old(jobs)[id], old(jobs)[id].failures + 1;
                jobs == old(jobs)[id := j.(failures := n, token := None, lease := None,
                                           progress := if n < max then Retrying else Failed,
                                           next := if n < max then Some(second + Backoff(n)) else None)]
    {
      if !StillOwned(id, token, first) { return; }
      var failures := jobs[id].failures + 1;
      var exhausted := failures >= max;
      if !StillOwned(id, token, second) { return; }
      jobs := jobs[id := jobs[id].(failures := failures, progress := if exhausted then Failed else Retrying,
                                   next := if exhausted then None else Some(second + Backoff(failures)),
                                   token := None, lease := None)];
    }

    method Retry(id: nat, at: int) returns (queued: bool)
      modifies this
      ensures Value() == Step(old(Value()), RetryByHand(id, at), max)
      ensures queued <==>
                && id in old(jobs)
                && var j := old(jobs)[id];
                   || j.progress == Failed || j.progress == Retrying || (j.kind == Reconcile && j.progress == Processed)
                   || (j.progress == Processing && j.lease.Some? && j.lease.value <= at)
      ensures markers == old(markers) && effects == old(effects)
      ensures jobs == if !queued then old(jobs)
                      else old(jobs)[id := old(jobs)[id].(progress := Pending, failures := 0, next := Some(at), token := None,
                                                          lease := None, manualRetries := old(jobs)[id].manualRetries + 1)]
    {
      if id !in jobs || !Retryable(jobs[id], at) { return false; }
      jobs := jobs[id := jobs[id].(progress := Pending, failures := 0, next := Some(at), token := None, lease := None,
                                   manualRetries := jobs[id].manualRetries + 1)];
      queued := true;
    }
  }
}
