/** The queue of research runs and the monthly usage ledger.

    Every event is one transaction. Any number of workers take steps in any order; a worker that was
    superseded goes on acting on what it once read, which is why its steps name the worker and are
    checked against the row. Clocks are those of the acting worker and need not agree. */
module RunLedger {
  import opened Prelude

  datatype Status = Queued | Running | Completed | Failed

  datatype Usage = Reserved | Settled | Released

  datatype Run = Run(owner: nat, status: Status, worker: Option<nat>, lease: Option<int>, startedAt: int)

  /** One run's usage: charged to the month of its first admission, however often it is retried. */
  datatype Entry = Entry(user: nat, period: int, state: Usage, requested: nat, actual: nat, attempts: nat)

  datatype State = State(runs: map<nat, Run>, ledger: map<nat, Entry>, closing: set<nat>)

  datatype Event =
    | Start(id: nat, owner: nat, at: int, period: int, requested: nat, denied: bool)
    | Retry(id: nat, period: int, requested: nat, denied: bool)
    | Claim(id: nat, worker: nat, now: int, until: int)
    | Renew(id: nat, worker: nat, until: int)
    | Complete(id: nat, worker: nat, papers: nat)
    | Fail(id: nat, worker: nat, papers: nat)
    | Delete(id: nat)
    | CloseAccount(owner: nat)

  predicate Active(r: Run) { r.status.Queued? || r.status.Running? }

  predicate OwnerBusy(runs: map<nat, Run>, owner: nat) {
    exists k <- runs.Keys :: runs[k].owner == owner && Active(runs[k])
  }

  predicate Claimable(s: State, id: nat, now: int) {
    && id in s.runs && Active(s.runs[id]) && s.runs[id].owner !in s.closing
    && (s.runs[id].lease.Some? ==> s.runs[id].lease.value < now)
  }

  predicate Owns(s: State, id: nat, worker: nat) {
    id in s.runs && s.runs[id].worker == Some(worker)
  }

  /** The same enqueue or a charged run is never reserved again. */
  function Reserve(ledger: map<nat, Entry>, id: nat, owner: nat, period: int, requested: nat): map<nat, Entry> {
    if id !in ledger then ledger[id := Entry(owner, period, Reserved, requested, 0, 1)]
    else if !ledger[id].state.Released? then ledger
    else ledger[id := ledger[id].(state := Reserved, attempts := ledger[id].attempts + 1)]
  }

  /** Runs from before the ledger existed, and repeated completions, charge nothing. */
  function Settle(ledger: map<nat, Entry>, id: nat, success: bool, papers: nat): map<nat, Entry> {
    if id !in ledger || !ledger[id].state.Reserved? then ledger
    else ledger[id := ledger[id].(state := if success then Settled else Released, actual := papers)]
  }

  /** The event queues a run: a new one, or a failed one again. */
  predicate Admits(s: State, e: Event) {
    match e
    case Start(id, owner, _, _, _, denied) => id !in s.runs && id !in s.ledger && !OwnerBusy(s.runs, owner) && !denied
    case Retry(id, _, _, denied) =>
      id in s.runs && s.runs[id].status.Failed? && !OwnerBusy(s.runs, s.runs[id].owner) && !denied
    case _ => false
  }

  function Step(s: State, e: Event): State {
    match e
    case Start(id, owner, at, period, requested, _) =>
      if !Admits(s, e) then s
      else s.(runs := s.runs[id := Run(owner, Queued, None, None, at)],
              ledger := Reserve(s.ledger, id, owner, period, requested))
    case Retry(id, period, requested, _) =>
      if !Admits(s, e) then s
      else s.(runs := s.runs[id := s.runs[id].(status := Queued, worker := None, lease := None)],
              ledger := Reserve(s.ledger, id, s.runs[id].owner, period, requested))
    case Claim(id, worker, now, until) =>
      if !Claimable(s, id, now) then s
      else s.(runs := s.runs[id := s.runs[id].(status := Running, worker := Some(worker), lease := Some(until))])
    case Renew(id, worker, until) =>
      if !Owns(s, id, worker) || !s.runs[id].status.Running? || s.runs[id].owner in s.closing then s
      else s.(runs := s.runs[id := s.runs[id].(lease := Some(until))])
    case Complete(id, worker, papers) =>
      if !Owns(s, id, worker) || !s.runs[id].status.Running? || s.runs[id].owner in s.closing then s
      else s.(runs := s.runs[id := s.runs[id].(status := Completed, worker := None, lease := None)],
              ledger := Settle(s.ledger, id, true, papers))
    case Fail(id, worker, papers) =>
      if !Owns(s, id, worker) then s
      else s.(runs := s.runs[id := s.runs[id].(status := Failed, worker := None, lease := None)],
              ledger := Settle(s.ledger, id, false, papers))
    case Delete(id) =>
      if id !in s.runs || Active(s.runs[id]) then s else s.(runs := s.runs - {id})
    case CloseAccount(owner) => s.(closing := s.closing + {owner})
  }

  function Play(s: State, es: seq<Event>): State
    decreases |es|
  {
    if es == [] then s else Play(Step(s, es[0]), es[1..])
  }

  // ---- What every history keeps ----

  ghost predicate RunOk(r: Run) {
    (r.worker.Some? <==> r.status.Running?) && (r.worker.Some? <==> r.lease.Some?)
  }

  /** Status and ledger tell the same story: active is reserved, completed is charged, failed is free. */
  ghost predicate Matches(r: Run, n: Entry) {
    && n.user == r.owner && n.attempts >= 1
    && (Active(r) <==> n.state.Reserved?)
    && (r.status.Completed? <==> n.state.Settled?)
    && (r.status.Failed? <==> n.state.Released?)
  }

  ghost predicate OneActivePerOwner(runs: map<nat, Run>) {
    forall a <- runs.Keys, b <- runs.Keys ::
      Active(runs[a]) && Active(runs[b]) && runs[a].owner == runs[b].owner ==> a == b
  }

  /** Every run has its ledger row, except those of `untracked`, which are older than the ledger. */
  ghost predicate Tracked(s: State, untracked: set<nat>) {
    forall k <- s.runs.Keys :: k in s.ledger || k in untracked
  }

  ghost predicate Inv(s: State, untracked: set<nat>) {
    && (forall k <- s.runs.Keys :: RunOk(s.runs[k]))
    && Tracked(s, untracked)
    && (forall k <- s.runs.Keys :: k in s.ledger ==> Matches(s.runs[k], s.ledger[k]))
    && (forall k <- s.ledger.Keys :: k !in s.runs ==> !s.ledger[k].state.Reserved?)
    && OneActivePerOwner(s.runs)
  }

  lemma StepKeepsOneActive(s: State, e: Event)
    requires OneActivePerOwner(s.runs)
    ensures OneActivePerOwner(Step(s, e).runs)
  {
    hide Reserve, Settle;
    var t := Step(s, e);
    forall a <- t.runs.Keys, b <- t.runs.Keys
      | Active(t.runs[a]) && Active(t.runs[b]) && t.runs[a].owner == t.runs[b].owner
      ensures a == b
    {
      if a in s.runs && b in s.runs && Active(s.runs[a]) && Active(s.runs[b]) {
        assert s.runs[a].owner == s.runs[b].owner;
      }
    }
  }

  lemma StepKeepsRuns(s: State, e: Event)
    requires forall k <- s.runs.Keys :: RunOk(s.runs[k])
    ensures forall k <- Step(s, e).runs.Keys :: RunOk(Step(s, e).runs[k])
  {
    hide Reserve, Settle, OwnerBusy;
  }

  lemma StepKeepsMatches(s: State, e: Event, untracked: set<nat>)
    requires Inv(s, untracked)
    ensures var t := Step(s, e);
            && (forall k <- t.runs.Keys :: k in t.ledger ==> Matches(t.runs[k], t.ledger[k]))
            && (forall k <- t.ledger.Keys :: k !in t.runs ==> !t.ledger[k].state.Reserved?)
  {
    hide OneActivePerOwner, OwnerBusy, Tracked;
  }

  lemma StepKeepsTracked(s: State, e: Event, untracked: set<nat>)
    requires Tracked(s, untracked)
    ensures Tracked(Step(s, e), untracked)
  {
    hide OwnerBusy;
  }

  lemma StepKeepsInv(s: State, e: Event, untracked: set<nat>)
    requires Inv(s, untracked)
    ensures Inv(Step(s, e), untracked)
  {
    StepKeepsOneActive(s, e);
    StepKeepsRuns(s, e);
    StepKeepsTracked(s, e, untracked);
    StepKeepsMatches(s, e, untracked);
    hide Step, OneActivePerOwner, RunOk, Matches, Tracked;
  }

  lemma {:induction false} HistoryKeepsInv(s: State, es: seq<Event>, untracked: set<nat>)
    requires Inv(s, untracked)
    ensures Inv(Play(s, es), untracked)
    decreases |es|
  {
    if es != [] {
      StepKeepsInv(s, es[0], untracked);
      HistoryKeepsInv(Step(s, es[0]), es[1..], untracked);
    }
  }

  /** Runs from before the ledger may be in any state; the queue itself starts consistent. */
  ghost predicate Initial(s: State) {
    && s.ledger == map[]
    && (forall k <- s.runs.Keys :: RunOk(s.runs[k]))
    && OneActivePerOwner(s.runs)
  }

  /** Whenever no transaction is running, a run admitted since the ledger exists has its row there, which is
      reserved exactly while the run is queued or running, charged exactly when it completed and released
      exactly when it failed. A worker is named exactly on a running run. */
  lemma LedgerFollowsTheRun(s: State, es: seq<Event>, id: nat)
    requires Initial(s) && id in Play(s, es).runs
    ensures var t := Play(s, es);
            && (id !in s.runs ==> id in t.ledger)
            && (t.runs[id].worker.Some? <==> t.runs[id].status.Running?)
            && (id in t.ledger ==>
                  && t.ledger[id].user == t.runs[id].owner
                  && (t.runs[id].status.Queued? || t.runs[id].status.Running? <==> t.ledger[id].state.Reserved?)
                  && (t.runs[id].status.Completed? <==> t.ledger[id].state.Settled?)
                  && (t.runs[id].status.Failed? <==> t.ledger[id].state.Released?))
  {
    HistoryKeepsInv(s, es, s.runs.Keys);
  }

  // ---- Conservation ----

  /** Who a run was first admitted for, and in which month: read off the history, not the ledger. */
  datatype Booking = Booking(owner: nat, period: int)

  function Book(s: State, e: Event, booked: map<nat, Booking>): map<nat, Booking> {
    if !Admits(s, e) || e.id in booked then booked
    else booked[e.id := Booking(if e.Start? then e.owner else s.runs[e.id].owner, e.period)]
  }

  function Bookings(s: State, es: seq<Event>, booked: map<nat, Booking>): map<nat, Booking>
    decreases |es|
  {
    if es == [] then booked else Bookings(Step(s, es[0]), es[1..], Book(s, es[0], booked))
  }

  ghost predicate SameBooks(ledger: map<nat, Entry>, booked: map<nat, Booking>) {
    booked.Keys == ledger.Keys && forall k <- ledger.Keys :: booked[k] == Booking(ledger[k].user, ledger[k].period)
  }

  /** Exactly the admitted runs have a row, each under the owner and month of its first admission. */
  lemma {:induction false} LedgerKeepsTheBookings(s: State, es: seq<Event>, booked: map<nat, Booking>)
    requires SameBooks(s.ledger, booked)
    ensures SameBooks(Play(s, es).ledger, Bookings(s, es, booked))
    decreases |es|
  {
    if es != [] {
      assert SameBooks(Step(s, es[0]).ledger, Book(s, es[0], booked)) by { hide OwnerBusy; }
      LedgerKeepsTheBookings(Step(s, es[0]), es[1..], Book(s, es[0], booked));
    }
  }

  ghost function EntriesOf(s: State, user: nat, period: int, state: Usage): set<nat> {
    set k | k in s.ledger && s.ledger[k].user == user && s.ledger[k].period == period && s.ledger[k].state == state
  }

  /** The runs booked for a user and month that did not fail; a deleted run counts if it was charged. */
  ghost function NotFailed(s: State, booked: map<nat, Booking>, user: nat, period: int): set<nat> {
    set k | k in booked && booked[k] == Booking(user, period)
            && (if k in s.runs then !s.runs[k].status.Failed? else k in s.ledger && s.ledger[k].state.Settled?)
  }

  lemma NotFailedIsCharged(t: State, booked: map<nat, Booking>, untracked: set<nat>, user: nat, period: int)
    requires Inv(t, untracked) && SameBooks(t.ledger, booked)
    ensures |EntriesOf(t, user, period, Settled)| + |EntriesOf(t, user, period, Reserved)|
            == |NotFailed(t, booked, user, period)|
  {
    hide OneActivePerOwner, RunOk;
    var settled, reserved := EntriesOf(t, user, period, Settled), EntriesOf(t, user, period, Reserved);
    assert settled !! reserved;
    assert NotFailed(t, booked, user, period) == settled + reserved;
  }

  /** Conservation: a month's completed plus reserved count equals the runs admitted for it that did not
      fail, across any retries, crashes, takeovers and deletions. */
  lemma UsageIsConserved(s: State, es: seq<Event>, user: nat, period: int)
    requires Initial(s)
    ensures var t := Play(s, es);
            |EntriesOf(t, user, period, Settled)| + |EntriesOf(t, user, period, Reserved)|
            == |NotFailed(t, Bookings(s, es, map[]), user, period)|
  {
    HistoryKeepsInv(s, es, s.runs.Keys);
    LedgerKeepsTheBookings(s, es, map[]);
    hide *;
    NotFailedIsCharged(Play(s, es), Bookings(s, es, map[]), s.runs.Keys, user, period);
  }

  // ---- Fencing ----

  /** A step of `worker` on run `id`, other than claiming it. */
  predicate ActsOn(e: Event, id: nat, worker: nat) {
    match e
    case Renew(k, w, _) => k == id && w == worker
    case Complete(k, w, _) => k == id && w == worker
    case Fail(k, w, _) => k == id && w == worker
    case _ => false
  }

  /** The history without those steps. */
  function Without(es: seq<Event>, id: nat, worker: nat): seq<Event>
    decreases |es|
  {
    if es == [] then []
    else if ActsOn(es[0], id, worker) then Without(es[1..], id, worker)
    else [es[0]] + Without(es[1..], id, worker)
  }

  ghost predicate NeverClaims(es: seq<Event>, id: nat, worker: nat) {
    forall e <- es :: !(e.Claim? && e.id == id && e.worker == worker)
  }

  lemma {:induction false} NonOwnerIsFenced(s: State, es: seq<Event>, id: nat, worker: nat)
    requires !Owns(s, id, worker) && NeverClaims(es, id, worker)
    ensures !Owns(Play(s, es), id, worker)
    ensures Play(s, es) == Play(s, Without(es, id, worker))
    decreases |es|
  {
    if es != [] {
      assert !Owns(Step(s, es[0]), id, worker);
      NonOwnerIsFenced(Step(s, es[0]), es[1..], id, worker);
      if !ActsOn(es[0], id, worker) {
        assert Without(es, id, worker)[1..] == Without(es[1..], id, worker);
      }
    }
  }

  /** Once another worker has taken a run over, the previous one can do nothing to it until it reclaims
      it: whatever it still tries, the history is the one without its attempts. */
  lemma SupersededWorkerIsFenced(s: State, takeover: Event, es: seq<Event>, worker: nat)
    requires takeover.Claim? && Claimable(s, takeover.id, takeover.now) && takeover.worker != worker
    requires NeverClaims(es, takeover.id, worker)
    ensures var t := Step(s, takeover);
            && Owns(t, takeover.id, takeover.worker)
            && !Owns(Play(t, es), takeover.id, worker)
            && Play(t, es) == Play(t, Without(es, takeover.id, worker))
  {
    NonOwnerIsFenced(Step(s, takeover), es, takeover.id, worker);
  }

  lemma ChargeStays(s: State, e: Event, id: nat, untracked: set<nat>)
    requires Inv(s, untracked) && id in s.ledger && s.ledger[id].state.Settled?
    ensures id in Step(s, e).ledger && Step(s, e).ledger[id] == s.ledger[id]
  {
    hide OwnerBusy, OneActivePerOwner, Tracked, RunOk;
  }

  // ---- Leases ----

  /** `worker` gives the run up by completing or failing it. */
  predicate GivesUp(e: Event, id: nat, worker: nat) {
    (e.Complete? || e.Fail?) && e.id == id && e.worker == worker
  }

  /** A claim of the run whose clock is past its lease. */
  predicate Lapses(s: State, e: Event, id: nat) {
    e.Claim? && e.id == id && id in s.runs && s.runs[id].lease.Some? && s.runs[id].lease.value < e.now
  }

  /** While its lease is not over for whoever acts, a running run keeps its worker, unless that one gives it up. */
  lemma LiveLeaseIsRespected(s: State, e: Event, id: nat, worker: nat)
    requires id in s.runs && s.runs[id].status.Running? && s.runs[id].worker == Some(worker) && s.runs[id].lease.Some?
    requires !Lapses(s, e, id) && !GivesUp(e, id, worker)
    ensures var t := Step(s, e);
            id in t.runs && t.runs[id].status.Running? && t.runs[id].worker == Some(worker) && t.runs[id].lease.Some?
    ensures !(e.Renew? && e.id == id && e.worker == worker) ==> Step(s, e).runs[id] == s.runs[id]
  {
    hide OwnerBusy, Reserve, Settle;
  }

  ghost predicate NeverLapses(s: State, es: seq<Event>, id: nat)
    decreases |es|
  {
    es != [] ==> !Lapses(s, es[0], id) && NeverLapses(Step(s, es[0]), es[1..], id)
  }

  /** The same over whole histories. */
  lemma {:induction false} WorkerKeepsItsRun(s: State, es: seq<Event>, id: nat, worker: nat)
    requires id in s.runs && s.runs[id].status.Running? && s.runs[id].worker == Some(worker) && s.runs[id].lease.Some?
    requires NeverLapses(s, es, id) && forall e <- es :: !GivesUp(e, id, worker)
    ensures id in Play(s, es).runs && Play(s, es).runs[id].status.Running? && Play(s, es).runs[id].worker == Some(worker)
    decreases |es|
  {
    if es != [] {
      LiveLeaseIsRespected(s, es[0], id, worker);
      hide Step, Lapses;
      WorkerKeepsItsRun(Step(s, es[0]), es[1..], id, worker);
    }
  }

  lemma {:induction false} DeadWorkersRunStays(s: State, es: seq<Event>, id: nat, worker: nat)
    requires id in s.runs && s.runs[id].status.Running? && s.runs[id].worker == Some(worker) && s.runs[id].lease.Some?
    requires forall e <- es :: !ActsOn(e, id, worker) && e != CloseAccount(s.runs[id].owner)
    requires forall e <- es :: e.Claim? && e.id == id ==> e.now <= s.runs[id].lease.value
    requires s.runs[id].owner !in s.closing
    ensures var t := Play(s, es); id in t.runs && t.runs[id] == s.runs[id] && s.runs[id].owner !in t.closing
    decreases |es|
  {
    if es != [] {
      LiveLeaseIsRespected(s, es[0], id, worker);
      assert s.runs[id].owner !in Step(s, es[0]).closing;
      hide Step;
      DeadWorkersRunStays(Step(s, es[0]), es[1..], id, worker);
    }
  }

  /** A run left running by a worker that died is taken over by the first claim after its lease, whatever happened
      to other runs meanwhile. */
  lemma AbandonedRunIsRecovered(s: State, es: seq<Event>, id: nat, dead: nat, worker: nat, now: int, until: int)
    requires id in s.runs && s.runs[id].status.Running? && s.runs[id].worker == Some(dead) && s.runs[id].lease.Some?
    requires s.runs[id].owner !in s.closing
    requires forall e <- es :: !ActsOn(e, id, dead) && e != CloseAccount(s.runs[id].owner)
    requires forall e <- es :: e.Claim? && e.id == id ==> e.now <= s.runs[id].lease.value
    requires s.runs[id].lease.value < now
    ensures var t := Step(Play(s, es), Claim(id, worker, now, until));
            id in t.runs && t.runs[id] == s.runs[id].(worker := Some(worker), lease := Some(until))
  {
    DeadWorkersRunStays(s, es, id, dead);
    hide Play;
  }

  /** Only finished runs are deleted; their charges stay. A closing account stays closing. */
  lemma DeletionAndClosure(s: State, id: nat, owner: nat)
    ensures Step(s, Delete(id)) ==
            if id in s.runs && (s.runs[id].status.Completed? || s.runs[id].status.Failed?) then s.(runs := s.runs - {id}) else s
    ensures Step(s, CloseAccount(owner)) == s.(closing := s.closing + {owner})
  {
  }

  /** A charged run is final: it is never reserved, released or charged again. */
  lemma {:induction false} ChargedOnce(s: State, es: seq<Event>, id: nat, untracked: set<nat>)
    requires Inv(s, untracked) && id in s.ledger && s.ledger[id].state.Settled?
    ensures var t := Play(s, es); id in t.ledger && t.ledger[id] == s.ledger[id]
    decreases |es|
  {
    if es != [] {
      StepKeepsInv(s, es[0], untracked);
      ChargeStays(s, es[0], id, untracked);
      hide Step, Inv;
      ChargedOnce(Step(s, es[0]), es[1..], id, untracked);
    }
  }

  /** A run keeps the month it was first charged to, and each accepted enqueue is counted once. */
  lemma {:induction false} PeriodIsKept(s: State, es: seq<Event>, id: nat)
    requires id in s.ledger
    ensures var t := Play(s, es);
            && id in t.ledger && t.ledger[id].period == s.ledger[id].period && t.ledger[id].user == s.ledger[id].user
            && t.ledger[id].requested == s.ledger[id].requested && s.ledger[id].attempts <= t.ledger[id].attempts
    decreases |es|
  {
    if es != [] {
      PeriodIsKept(Step(s, es[0]), es[1..], id);
    }
  }

  // ---- The same transactions as the program runs them ----

  /** The oldest run a worker may take, ties broken by identifier. */
  ghost predicate Oldest(s: State, id: nat, now: int) {
    && Claimable(s, id, now)
    && forall k <- s.runs.Keys :: Claimable(s, k, now) ==>
         s.runs[id].startedAt < s.runs[k].startedAt || (s.runs[id].startedAt == s.runs[k].startedAt && id <= k)
  }

  method NextCandidate(s: State, now: int) returns (candidate: Option<nat>)
    ensures candidate.Some? ==> Oldest(s, candidate.value, now)
    ensures candidate.None? ==> forall k <- s.runs.Keys :: !Claimable(s, k, now)
    ensures candidate.Some? ==>
              && candidate.value in s.runs
              && var r := s.runs[candidate.value];
                 && (r.status.Queued? || r.status.Running?) && r.owner !in s.closing && (r.lease.None? || r.lease.value < now)
    ensures forall k <- s.runs.Keys ::
              var r := s.runs[k];
              (r.status.Queued? || r.status.Running?) && r.owner !in s.closing && (r.lease.None? || r.lease.value < now) ==>
                candidate.Some? && s.runs[candidate.value].startedAt <= r.startedAt
                && (s.runs[candidate.value].startedAt == r.startedAt ==> candidate.value <= k)
  {
    candidate := None;
    var left := s.runs.Keys;
    while left != {}
      invariant left <= s.runs.Keys
      invariant candidate.None? ==> forall k <- s.runs.Keys - left :: !Claimable(s, k, now)
      invariant candidate.Some? ==> Claimable(s, candidate.value, now)
      invariant candidate.Some? ==> forall k <- s.runs.Keys - left :: Claimable(s, k, now) ==>
                  s.runs[candidate.value].startedAt < s.runs[k].startedAt
                  || (s.runs[candidate.value].startedAt == s.runs[k].startedAt && candidate.value <= k)
      decreases |left|
    {
      var k :| k in left;
      left := left - {k};
      if Claimable(s, k, now)
         && (candidate.None? || s.runs[k].startedAt < s.runs[candidate.value].startedAt
             || (s.runs[k].startedAt == s.runs[candidate.value].startedAt && k <= candidate.value)) {
        candidate := Some(k);
      }
    }
  }

  class Queue {
    var runs: map<nat, Run>
    var ledger: map<nat, Entry>
    var closing: set<nat>

    ghost function Value(): State
      reads this
    {
      State(runs, ledger, closing)
    }

    constructor ()
      ensures Initial(Value())
    {
      runs, ledger, closing := map[], map[], {};
    }

    method ReserveUsage(id: nat, owner: nat, period: int, requested: nat)
      modifies `ledger
      ensures ledger == Reserve(old(ledger), id, owner, period, requested)
      ensures ledger == if id !in old(ledger) then old(ledger)[id := Entry(owner, period, Reserved, requested, 0, 1)]
                        else if old(ledger)[id].state != Released then old(ledger)
                        else old(ledger)[id := old(ledger)[id].(state := Reserved, attempts := old(ledger)[id].attempts + 1)]
    {
      if id in ledger && !ledger[id].state.Released? { return; }
      var row := Entry(owner, period, Released, requested, 0, 1);
      if id in ledger { row := ledger[id].(attempts := ledger[id].attempts + 1); }
      ledger := ledger[id := row.(state := Reserved)];
    }

    method SettleUsage(id: nat, success: bool, papers: nat)
      modifies `ledger
      ensures ledger == Settle(old(ledger), id, success, papers)
      ensures ledger == if id !in old(ledger) || old(ledger)[id].state != Reserved then old(ledger)
                        else old(ledger)[id := old(ledger)[id].(state := if success then Settled else Released, actual := papers)]
    {
      if id !in ledger || !ledger[id].state.Reserved? { return; }
      ledger := ledger[id := ledger[id].(actual := papers, state := if success then Settled else Released)];
    }

    /** Admission: run and reservation commit together or not at all. */
    method StartDigest(id: nat, owner: nat, at: int, period: int, requested: nat, denied: bool) returns (admitted: bool)
      requires id !in runs && id !in ledger
      modifies this
      ensures Value() == Step(old(Value()), Start(id, owner, at, period, requested, denied))
      ensures admitted <==>
              !denied && forall k <- old(runs).Keys :: old(runs)[k].owner == owner ==> old(runs)[k].status in {Completed, Failed}
      ensures closing == old(closing)
      ensures runs == if admitted then old(runs)[id := Run(owner, Queued, None, None, at)] else old(runs)
      ensures ledger == if admitted then old(ledger)[id := Entry(owner, period, Reserved, requested, 0, 1)] else old(ledger)
    {
      if OwnerBusy(runs, owner) { return false; }
      var run := Run(owner, Queued, None, None, at);
      if denied { return false; }
      runs := runs[id := run];
      ReserveUsage(id, owner, period, requested);
      admitted := true;
    }

    method RetryDigest(id: nat, period: int, requested: nat, denied: bool) returns (admitted: bool)
      modifies this
      ensures Value() == Step(old(Value()), Retry(id, period, requested, denied))
      ensures admitted <==>
              && !denied && id in old(runs) && old(runs)[id].status.Failed?
              && forall k <- old(runs).Keys :: old(runs)[k].owner == old(runs)[id].owner ==> old(runs)[k].status in {Completed, Failed}
      ensures closing == old(closing)
      ensures runs == if admitted then old(runs)[id := old(runs)[id].(status := Queued, worker := None, lease := None)] else old(runs)
      ensures admitted && id in old(ledger) && old(ledger)[id].state.Released? ==>
                ledger == old(ledger)[id := old(ledger)[id].(state := Reserved, attempts := old(ledger)[id].attempts + 1)]
      ensures admitted && id !in old(ledger) ==>
                ledger == old(ledger)[id := Entry(old(runs)[id].owner, period, Reserved, requested, 0, 1)]
      ensures !admitted ==> ledger == old(ledger)
    {
      if id !in runs || !runs[id].status.Failed? || OwnerBusy(runs, runs[id].owner) || denied { return false; }
      runs := runs[id := runs[id].(status := Queued, worker := None, lease := None)];
      ReserveUsage(id, runs[id].owner, period, requested);
      admitted := true;
    }

    /** Take a candidate read a moment ago; another worker may have been faster. */
    method ClaimNext(candidate: nat, worker: nat, now: int, until: int) returns (claimed: bool)
      modifies this
      ensures Value() == Step(old(Value()), Claim(candidate, worker, now, until))
      ensures claimed <==>
              && candidate in old(runs) && (old(runs)[candidate].status.Queued? || old(runs)[candidate].status.Running?)
              && old(runs)[candidate].owner !in closing
              && (old(runs)[candidate].lease.None? || old(runs)[candidate].lease.value < now)
      ensures ledger == old(ledger) && closing == old(closing)
      ensures runs == if !claimed then old(runs)
                      else old(runs)[candidate := old(runs)[candidate].(status := Running, worker := Some(worker), lease := Some(until))]
    {
      if candidate !in runs || !Active(runs[candidate]) || runs[candidate].owner in closing
         || (runs[candidate].lease.Some? && runs[candidate].lease.value >= now) {
        return false;
      }
      runs := runs[candidate := runs[candidate].(status := Running, worker := Some(worker), lease := Some(until))];
      claimed := true;
    }

    method RenewLease(id: nat, worker: nat, until: int) returns (renewed: bool)
      modifies this
      ensures Value() == Step(old(Value()), Renew(id, worker, until))
      ensures renewed <==>
              && id in old(runs) && old(runs)[id].worker == Some(worker)
              && old(runs)[id].status.Running? && old(runs)[id].owner !in closing
      ensures ledger == old(ledger) && closing == old(closing)
      ensures runs == if renewed then old(runs)[id := old(runs)[id].(lease := Some(until))] else old(runs)
    {
      if id !in runs || runs[id].owner in closing { return false; }
      if runs[id].worker != Some(worker) || !runs[id].status.Running? { return false; }
      runs := runs[id := runs[id].(lease := Some(until))];
      renewed := true;
    }

    /** The last transaction of a run: fence, charge, complete. */
    method CompleteRun(id: nat, worker: nat, until: int, papers: nat) returns (completed: bool)
      modifies this
      ensures Value() == Step(old(Value()), Complete(id, worker, papers))
      ensures completed <==>
              && id in old(runs) && old(runs)[id].worker == Some(worker)
              && old(runs)[id].status.Running? && old(runs)[id].owner !in closing
      ensures closing == old(closing) && (!completed ==> Value() == old(Value()))
      ensures completed ==> runs == old(runs)[id := old(runs)[id].(status := Completed, worker := None, lease := None)]
      ensures completed && id in old(ledger) && old(ledger)[id].state.Reserved? ==>
                ledger == old(ledger)[id := old(ledger)[id].(state := Settled, actual := papers)]
    {
      completed := RenewLease(id, worker, until);
      if !completed { return; }
      SettleUsage(id, true, papers);
      runs := runs[id := runs[id].(status := Completed, worker := None, lease := None)];
    }

    /** After a rollback, only the current owner records the failure. */
    method FailRun(id: nat, worker: nat, papers: nat) returns (recorded: bool)
      modifies this
      ensures Value() == Step(old(Value()), Fail(id, worker, papers))
      ensures recorded <==> id in old(runs) && old(runs)[id].worker == Some(worker)
      ensures closing == old(closing) && (!recorded ==> Value() == old(Value()))
      ensures recorded ==> runs == old(runs)[id := old(runs)[id].(status := Failed, worker := None, lease := None)]
      ensures recorded && id in old(ledger) && old(ledger)[id].state.Reserved? ==>
                ledger == old(ledger)[id := old(ledger)[id].(state := Released, actual := papers)]
    {
      if id !in runs || runs[id].worker != Some(worker) { return false; }
      SettleUsage(id, false, papers);
      runs := runs[id := runs[id].(status := Failed, worker := None, lease := None)];
      recorded := true;
    }
  }
}
