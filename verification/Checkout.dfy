/** Starting, submitting and observing purchase attempts under the account lock.

    `rows` changes only where the program commits; a method works on a copy of the row it may save.
    `*` stands for what the program does not control: the provider, the clock, the network, and the
    answers of other services. A ghost `begun` is the state in which the running transaction started. */
module Checkout {
  import opened Prelude
  import opened CheckoutProtocol

  /** A session as the provider reports it. */
  datatype View = View(status: Status, subscribed: bool, unpaid: bool, recovery: bool, redirectable: bool)

  /** A row after looking at the provider; `ok` is false when the observation had to be abandoned. */
  datatype Observation = Observation(ok: bool, row: Row, view: Option<View>)

  datatype Verified = Stop | Fail | Canonical(view: View)

  /** How the first step of a replacement ends: nothing to do here, an ordinary start instead, or go on. */
  datatype Consented = NotNow | StartInstead(attempt: nat) | Agreed(isNew: bool)

  /** How the handoff ends: again from the start, without a successor and perhaps with the consent withdrawn, or
      with a successor saved. */
  datatype Handed = Reenter | Declined(withdrawn: bool) | Successor(attempt: nat)

  datatype Started = Refused(committed: bool) | Url(attempt: nat) | Saved(attempt: nat)

  function SeenAs(s: Status): Seen {
    match s
    case Open => SeenOpen
    case Expired => SeenExpired
    case Complete => SeenComplete
  }

  /** A report that can be relied on whenever it is read: it may be old, but what it says is final still holds. */
  predicate Reliable(v: View, m: Remote) {
    && m.sessions != []
    && (v.status.Expired? ==> m.sessions[0].status.Expired?)
    && (v.status.Complete? ==> m.sessions[0].status.Complete?)
    && (v.subscribed ==> !m.sessions[0].subscription.NoSubscription?)
  }

  /** The creation request has been sent at or after a moment. */
  predicate SentSince(m: Remote, at: int) { m.lastSend.Some? && at <= m.lastSend.value }

  /** How the provider answers while transactions run: every request, reporting the session's payment, recovery and
      page so and granting or denying an expiration; none of them; or in any way at all. */
  datatype Line = Up(unpaid: bool, recovery: bool, expires: bool, redirectable: bool) | Down | Flaky

  /** A page that has just been opened, as the provider reports it while the line is up. */
  function FreshPage(line: Line): View
    requires line.Up?
  {
    View(Open, false, line.unpaid, line.recovery, line.redirectable)
  }

  /** What was final about the key's session still holds later. */
  predicate Follows(a: Remote, b: Remote) { a.sessions != [] ==> b.sessions != [] && SessionMoves(a.sessions[0], b.sessions[0]) }

  /** There is a session, and nothing has been bought with it. */
  predicate Unsold(m: Remote) {
    m.sessions != [] && m.sessions[0].subscription.NoSubscription? && !m.sessions[0].status.Complete?
  }

  predicate IsOpen(m: Remote) { Unsold(m) && m.sessions[0].status.Open? }

  predicate Bought(m: Remote) {
    m.sessions != [] && m.sessions[0].status.Complete? && !m.sessions[0].subscription.NoSubscription?
  }

  /** `terminal` is what was said about the session's subscription at some time between the two. */
  predicate Reported(terminal: Option<bool>, before: Remote, after: Remote) {
    && terminal.Some? && after.sessions != [] && !after.sessions[0].subscription.NoSubscription?
    && (before.sessions != [] && before.sessions[0].subscription.Terminal? ==> terminal.value)
    && (after.sessions[0].subscription.Live? ==> !terminal.value)
  }

  /** What other services answer: whether billing changes are allowed, whether the plan can be bought. */
  datatype Facts = Facts(allowed: bool, planOk: bool)

  /** An attempt that has only been saved. */
  predicate IsNew(r: Row) { r.seen.Creating? && r.terminal.None? && r.intent.None? }

  predicate AllFollow(a: seq<Remote>, b: seq<Remote>, n: nat) {
    n <= |a| && n <= |b| && forall i :: 0 <= i < n ==> Follows(a[i], b[i])
  }

  /** The newest attempt, `k`, is still open and has the requested terms, and its page can be shown. */
  predicate ShowsPage(rows: seq<Row>, k: nat, target: Target, after: seq<Remote>, facts: Facts, line: Line) {
    && |rows| == k + 1 && k < |after| && facts.allowed && line.Up? && line.redirectable
    && rows[k].target == target && !IsPending(rows[k]) && !rows[k].seen.Creating? && rows[k].terminal.None?
    && IsOpen(after[k])
  }

  /** No attempt stands in the way of a new one. */
  predicate Vacant(rows: seq<Row>, remotes: seq<Remote>, line: Line)
    requires |rows| == |remotes|
  {
    rows == [] || var k := |rows| - 1; line.Up? && !IsPending(rows[k]) && !rows[k].seen.Creating? && Ended(rows[k], remotes[k])
  }

  /** The newest attempt has consented to the target, or may do so now with nobody in between. */
  predicate Agreeable(row: Row, target: Target, facts: Facts, quiet: bool) {
    && facts.allowed && row.terminal.None? && !row.seen.Creating?
    && if IsPending(row) then row.intent.value.target == target
       else quiet && facts.planOk && row.target != target && !row.seen.SeenComplete?
  }

  predicate Unfinished(r: Row) { r.seen.Creating? || r.seen.SeenOpen? }

  predicate SameTerms(a: Row, b: Row) {
    a.target == b.target && a.createdAt == b.createdAt && a.intent == b.intent
  }

  /** The row's consent to `target` led to attempt `i`. */
  predicate CarriedOut(r: Row, target: Target, i: nat) {
    r.intent.Some? && r.intent.value.target == target && r.intent.value.state == Replaced(i)
  }

  /** Nothing but observations changed. */
  predicate Observed(a: seq<Row>, b: seq<Row>) {
    |a| == |b| && forall k :: 0 <= k < |a| ==> SameTerms(a[k], b[k])
  }

  /** What starting a checkout may answer. A caller that names the attempt it expects never gets a new
      one; nor does anybody while a consent is pending, except its own handoff. */
  predicate Concluded(a: seq<Row>, b: seq<Row>, r: Started, target: Target, expected: Option<nat>, source: Option<nat>) {
    && (source.None? && a != [] && IsPending(a[|a| - 1]) ==> r.Refused? && b == a)
    && match r
       case Refused(committed) => Observed(a, b) && (committed || b == a)
       case Url(i) =>
         && Observed(a, b) && |b| == i + 1 && b[i].seen.SeenOpen? && b[i].target == target
         && source.None? && (expected.Some? ==> expected.value == i)
       case Saved(n) =>
         && |a| == n && |b| == n + 1 && b[n] == Row(target, b[n].createdAt, Creating, None, None)
         && (n > 0 ==> b[..n - 1] == a[..n - 1])
         && (source.None? ==> expected.None? && Observed(a, b[..n]))
         && (source.Some? ==> source.value + 1 == n && IsPending(a[n - 1]) && a[n - 1].intent.value.target == target
                              && b[n - 1].target == a[n - 1].target && b[n - 1].createdAt == a[n - 1].createdAt
                              && b[n - 1].intent == Some(a[n - 1].intent.value.(state := Replaced(n))))
  }

  /** Terms never change, attempts are only added, and a carried-out consent stays as it is. */
  predicate Extends(a: seq<Row>, b: seq<Row>) {
    && |a| <= |b|
    && forall k :: 0 <= k < |a| ==>
         && a[k].target == b[k].target && a[k].createdAt == b[k].createdAt
         && (a[k].intent.Some? && a[k].intent.value.state.Replaced? ==> b[k].intent == a[k].intent)
  }

  /** A replacement answers with the successor its source consented to, or with the source itself when
      that already has the requested terms. */
  predicate ReplacedBy(rows: seq<Row>, r: Started, source: nat, target: Target) {
    UrlOf(rows, r, target) && (r.attempt == source || (source < |rows| && CarriedOut(rows[source], target, r.attempt)))
  }

  lemma HandledExtends(a: seq<Row>, b: seq<Row>, h: Handed, source: nat, target: Target)
    requires Handled(a, b, h, source, target)
    ensures Extends(a, b)
  {
    if !h.Reenter? && b != a { assert forall k :: 0 <= k < source ==> a[k] == a[..source][k] && b[k] == b[..source][k]; }
  }

  lemma ExtendsFurther(a: seq<Row>, b: seq<Row>, c: seq<Row>)
    requires Extends(a, b) && Extends(b, c)
    ensures Extends(a, c)
  {
  }

  /** `r` answers with the newest attempt, which is open and has the requested terms. */
  predicate UrlOf(rows: seq<Row>, r: Started, target: Target) {
    r.Url? && |rows| == r.attempt + 1 && rows[r.attempt].target == target && rows[r.attempt].seen.SeenOpen?
  }

  lemma ObservedExtends(a: seq<Row>, b: seq<Row>, c: seq<Row>, d: seq<Row>)
    requires Extends(a, b) && Extends(b, c) && Observed(c, d)
    ensures Extends(b, d) && Extends(a, d)
  {
    ExtendsFurther(b, c, d);
    ExtendsFurther(a, b, d);
  }

  lemma StepExtends(s: State, t: State)
    requires Inv(s) && (World(s, t) || Commit(s, t))
    ensures Inv(t) && Extends(s.rows, t.rows)
  {
    if World(s, t) { WorldKeepsInv(s, t); } else {
      CommitKeepsInv(s, t);
      forall k | 0 <= k < |s.rows| && s.rows[k].intent.Some? && s.rows[k].intent.value.state.Replaced?
        ensures t.rows[k].intent == s.rows[k].intent
      {
        assert IntentMoves(s.rows, k, t.rows);
      }
    }
  }

  lemma SameStateReaches(s: State)
    ensures Reaches(s, s)
  {
    var h := [s];
    assert History(h) && h[0] == s && h[|h| - 1] == s;
  }

  lemma StepReaches(s: State, t: State, u: State)
    requires Reaches(s, t) && (World(t, u) || Commit(t, u))
    ensures Reaches(s, u)
  {
    var h := [t, u];
    assert History(h) && h[0] == t && h[|h| - 1] == u;
    ReachesIsTransitive(s, t, u);
  }

  /** An account can come to have an attempt that is known to have expired. */
  lemma ExpiredAttempt(target: Target) returns (s: State)
    ensures Reaches(EMPTY, s) && Inv(s) && s.rows == [Row(target, 0, SeenExpired, None, None)]
  {
    var empty, row := EMPTY, Row(target, 0, Creating, None, None);
    var sent := Remote([Session(Expired, NoSubscription)], 0, Some(0));
    var added, expired := State([row], [UNUSED], 0), State([row], [sent], 0);
    s := State([row.(seen := SeenExpired)], [sent], 0);
    FirstAttempt(empty, added);
    assert World(added, expired) && Commit(expired, s);
    SameStateReaches(empty);
    StepExtends(empty, added);
    StepExtends(added, expired);
    StepExtends(expired, s);
    StepReaches(empty, empty, added);
    StepReaches(empty, added, expired);
    StepReaches(empty, expired, s);
  }

  function Withdrawn(r: Row): Row
    requires IsPending(r)
  {
    r.(intent := Some(r.intent.value.(state := Blocked)))
  }

  /** The newest attempt's consent was withdrawn; nothing else but its observation changed. */
  predicate ConsentWithdrawn(a: seq<Row>, b: seq<Row>, i: nat) {
    && |a| == |b| == i + 1 && b[..i] == a[..i]
    && IsPending(a[i]) && SameTerms(Withdrawn(a[i]), b[i])
  }

  /** What a handoff may answer; a successor has the agreed terms and is linked from its source. */
  predicate Handled(a: seq<Row>, b: seq<Row>, h: Handed, source: nat, target: Target) {
    match h
    case Reenter => b == a && |a| != source + 1
    case Declined(withdrawn) => if withdrawn then ConsentWithdrawn(a, b, source) else b == a
    case Successor(n) =>
      && n == source + 1 == |a| && |b| == n + 1 && b[..source] == a[..source]
      && IsPending(a[source]) && a[source].intent.value.target == target
      && b[source].target == a[source].target && b[source].createdAt == a[source].createdAt
      && b[source].intent == Some(a[source].intent.value.(state := Replaced(n)))
      && b[n] == Row(target, b[n].createdAt, Creating, None, None)
  }

  /** The attempt is known to have ended without a subscription. */
  predicate KnownExpired(r: Row) { r.seen.SeenExpired? && r.terminal.None? }

  /** The provider has expired the session of an attempt without a known subscription. */
  predicate Ended(r: Row, m: Remote) { r.terminal.None? && m.sessions != [] && m.sessions[0].status.Expired? }

  /** The attempt has no known subscription, and its session is known or can still be recovered. */
  predicate Known(r: Row, now: int) { r.terminal.None? && (r.seen.Creating? ==> now <= r.createdAt + REPLAY_WINDOW) }

  /** The attempt's request has never been answered, and nothing forbids sending it. */
  predicate MustSend(rows: seq<Row>, k: nat, closing: bool) {
    !closing && k + 1 == |rows| && !IsPending(rows[k]) && !HasLive(rows[k]) && rows[k].seen.Creating?
  }

  /** It is saved that attempt `i` has expired, and so it has. */
  predicate SavedExpired(rows: seq<Row>, remotes: seq<Remote>, i: nat) {
    && i < |rows| && i < |remotes| && rows[i].seen.SeenExpired?
    && remotes[i].sessions != [] && remotes[i].sessions[0].status.Expired?
  }

  /** Withdrawing the pending consent `id` of the newest attempt, once that is known to have expired. */
  function Unblocked(rows: seq<Row>, source: nat, id: nat): seq<Row> {
    if |rows| == source + 1 && rows[source].seen.SeenExpired? && IsPending(rows[source]) && rows[source].intent.value.id == id
    then rows[source := Withdrawn(rows[source])] else rows
  }

  /** The attempt has a subscription that is not over. */
  predicate HasLive(r: Row) { r.terminal == Some(false) }

  /** The attempt's own page can be shown again. */
  predicate Answers(r: Row, view: Option<View>, target: Target) { r.target == target && r.seen.SeenOpen? && view.Some? }

  predicate TooOld(r: Row, target: Target, now: int) { r.target == target && r.createdAt + REPLAY_WINDOW < now }

  /** The answer, wherever it does not depend on the provider: a live subscription, other terms or an attempt
      too old to retry refuse; an open page is shown again; a finished attempt makes room for a new one. */
  predicate Decision(row: Row, view: Option<View>, planOk: bool, line: Line, target: Target, expected: Option<nat>,
                     source: Option<nat>, now: int, r: Started, n: nat) {
    if HasLive(row) then r == Refused(true)
    else if Unfinished(row) then
      if row.target != target then r == Refused(true)
      else if Answers(row, view, target) then
        (if view.value.redirectable then r.Url? && r.attempt + 1 == n else r == Refused(false))
      else if TooOld(row, target, now) then r == Refused(true)
      else !r.Saved? && (line.Up? ==> if line.redirectable then r.Url? && r.attempt + 1 == n else r == Refused(true))
    else if expected.Some? && source.None? then r == Refused(true)
    else r == if planOk then Saved(n) else Refused(false)
  }

  /** What a start answers from the newest attempt, by what the provider held for it before and after: an open page
      is shown again for the same terms only; an attempt that is over makes room for a new one unless it is the
      expected one; a live subscription refuses; an unanswered request is sent again within the replay window. */
  predicate Served(row: Row, before: Remote, after: Remote, line: Line, planOk: bool, target: Target, expected: Option<nat>,
                   from: int, to: int, r: Started, n: nat) {
    var page := line.Up? && if line.redirectable then r.Url? && r.attempt + 1 == n else r.Refused?;
    if row.seen.Creating? && row.terminal.None? then
      if row.target != target || row.createdAt + REPLAY_WINDOW < from then r == Refused(true)
      else line.Up? && to <= row.createdAt + REPLAY_WINDOW ==> page
    else if row.seen.Creating? || line.Flaky? then true
    else if line.Down? then r == Refused(false)
    else
      && (row.terminal.None? && IsOpen(after) ==> if row.target == target then page else r == Refused(true))
      && (Ended(row, before) || (Bought(before) && before.sessions[0].subscription.Terminal?) ==>
            r == if expected.Some? then Refused(true) else if planOk then Saved(n) else Refused(false))
      && (Bought(before) && after.sessions != [] && after.sessions[0].subscription.Live? ==> r == Refused(true))
  }

  lemma ServedSince(row: Row, a: Remote, b: Remote, after: Remote, line: Line, planOk: bool, target: Target,
                    expected: Option<nat>, from: int, granted: int, to: int, r: Started, n: nat)
    requires Served(row, b, after, line, planOk, target, expected, granted, to, r, n) && Follows(a, b) && from <= granted <= to
    ensures Served(row, a, after, line, planOk, target, expected, from, to, r, n)
  {
  }

  /** The request is refused before anything is looked up. */
  predicate Closed(rows: seq<Row>, working: Option<Row>, facts: Facts, target: Target, expected: Option<nat>, source: Option<nat>)
    requires working.Some? <==> rows != []
  {
    || !facts.allowed
    || (expected.Some? && |rows| != expected.value + 1)
    || (if source.Some?
        then working.None? || |rows| != source.value + 1 || !working.value.seen.SeenExpired? || working.value.terminal.Some?
             || !IsPending(working.value) || working.value.intent.value.target != target
        else working.Some? && IsPending(working.value))
  }

  /** What looking at an attempt tells, by what the provider held for it before and after: an unsold session is taken
      over as it is, a finished purchase with its subscription, and nothing without answers. */
  predicate Looked(row: Row, o: Observation, before: Remote, after: Remote, line: Line) {
    if row.seen.Creating? then (if row.terminal.None? then o == Observation(true, row, None) else line.Down? ==> !o.ok)
    else
      && (line.Up? && row.terminal.None? && Unsold(after) ==>
            && o.ok && o.view.Some? && o.view.value == FreshPage(line).(status := o.view.value.status)
            && o.row == row.(seen := SeenAs(o.view.value.status)) && !o.row.seen.SeenComplete?
            && (IsOpen(after) ==> o.row.seen.SeenOpen?))
      && (line.Up? && Ended(row, before) ==> Unsold(after) && o.row.seen.SeenExpired?)
      && (line.Up? && Bought(before) ==> o.ok && o.row.seen.SeenComplete? && Reported(o.row.terminal, before, after))
      && (line.Down? ==> !o.ok)
  }

  /** Looking at the newest attempt and then deciding serves the request. */
  lemma DecidedIsServed(row: Row, o: Observation, before: Remote, mid: Remote, after: Remote, line: Line, planOk: bool,
                        target: Target, expected: Option<nat>, from: int, at: int, to: int, r: Started, n: nat)
    requires Follows(before, mid) && Follows(mid, after) && from <= at <= to && SameTerms(o.row, row)
    requires if o.ok then Decision(o.row, o.view, planOk, line, target, expected, None, at, r, n) else r == Refused(false) && after == mid
    requires Looked(row, o, before, mid, line) && (row.seen.Creating? && row.terminal.None? ==> at == from)
    requires !row.seen.Creating? ==> before.sessions != []
    ensures Served(row, before, after, line, planOk, target, expected, from, to, r, n)
  {
  }

  lemma SourceMakesRoom(row: Row, view: Option<View>, planOk: bool, line: Line, target: Target, expected: Option<nat>,
                        source: Option<nat>, now: int, r: Started, n: nat)
    requires Decision(row, view, planOk, line, target, expected, source, now, r, n) && source.Some? && KnownExpired(row)
    ensures r == if planOk then Saved(n) else Refused(false)
  {
  }

  lemma RefusalConcludes(rows: seq<Row>, target: Target, expected: Option<nat>, source: Option<nat>)
    ensures Concluded(rows, rows, Refused(false), target, expected, source)
  {
  }

  lemma ObservedConcludes(a: seq<Row>, b: seq<Row>, row: Row, r: Started, target: Target, expected: Option<nat>, source: Option<nat>)
    requires a != [] && Observed(a, b) && SameTerms(row, a[|a| - 1])
    requires source.None? ==> !IsPending(row)
    requires match r
             case Refused(committed) => committed || b == a
             case Url(i) =>
               && |b| == i + 1 && b[i].seen.SeenOpen? && row.target == target
               && source.None? && (expected.Some? ==> expected.value == i)
             case Saved(_) => false
    ensures Concluded(a, b, r, target, expected, source)
  {
  }

  lemma AdditionConcludes(a: seq<Row>, b: seq<Row>, row: Row, previous: Row, target: Target, expected: Option<nat>, source: Option<nat>)
    requires a != [] && SameTerms(row, a[|a| - 1]) && |b| == |a| + 1 && b[..|a|] == a[|a| - 1 := previous]
    requires b[|a|] == Row(target, b[|a|].createdAt, Creating, None, None)
    requires if source.Some?
             then source.value == |a| - 1 && IsPending(row) && row.intent.value.target == target
                  && previous == row.(intent := Some(row.intent.value.(state := Replaced(|a|))))
             else !IsPending(row) && previous == row && expected.None?
    ensures Concluded(a, b, Saved(|a|), target, expected, source) && b[|a| - 1] == previous
  {
    var n := |a|;
    assert b[n - 1] == b[..n][n - 1];
    assert b[..n - 1] == b[..n][..n - 1];
  }

  lemma ExpiryIsSeen(row: Row, o: Observation, before: Remote, after: Remote, line: Line)
    requires Looked(row, o, before, after, line) && line.Up? && !row.seen.Creating? && Ended(row, before)
    ensures o.ok
  {
  }

  lemma StaysEnded(row: Row, next: Row, a: Remote, b: Remote)
    requires Follows(a, b) && Ended(row, a) && next.terminal.None?
    ensures Ended(next, b)
  {
  }

  lemma WasUnsold(a: Remote, b: Remote, c: Remote)
    requires Follows(a, b) && Follows(b, c) && a.sessions != [] && Unsold(c)
    ensures Unsold(b)
  {
  }

  lemma FollowsItself(m: Remote)
    ensures Follows(m, m)
  {
  }

  lemma FollowsFurther(a: Remote, b: Remote, c: Remote)
    requires Follows(a, b) && Follows(b, c)
    ensures Follows(a, c)
  {
  }

  /** A start that names no source is closed in exactly these cases. */
  lemma ClosedIff(rows: seq<Row>, working: Option<Row>, facts: Facts, target: Target, expected: Option<nat>)
    requires if rows == [] then working.None? else working == Some(rows[|rows| - 1])
    ensures Closed(rows, working, facts, target, expected, None) <==>
              || !facts.allowed || (expected.Some? && |rows| != expected.value + 1)
              || (rows != [] && IsPending(rows[|rows| - 1]))
  {
  }

  /** A copy of the newest row, observed further but not yet saved. */
  predicate Working(rows: seq<Row>, remotes: seq<Remote>, row: Option<Row>, complete: bool)
    requires |rows| == |remotes|
  {
    && (row.Some? <==> rows != [])
    && (row.Some? ==> SameTerms(row.value, rows[|rows| - 1]) && Truth(row.value, remotes[|rows| - 1])
                      && (complete ==> Sound(row.value, remotes[|rows| - 1])))
  }

  /** The row shows that its attempt can take no more money. */
  predicate Finished(r: Row, m: Remote) {
    Sound(r, m) && (r.seen.SeenExpired? || (r.seen.SeenComplete? && r.terminal == Some(true)))
  }

  lemma OverIsFinished(r: Row, m: Remote, intent: Option<Intent>)
    requires Sound(r, m) && !r.seen.Creating? && !r.seen.SeenOpen? && r.terminal != Some(false)
    ensures Finished(r.(intent := intent), m)
  {
    if r.seen.SeenComplete? { assert r.terminal.Some? && r.terminal.value; }
  }

  lemma WorkingStaysTrue(rows: seq<Row>, remotes: seq<Remote>, row: Row)
    requires |rows| == |remotes| && Working(rows, remotes, Some(row), true)
    ensures Working(rows, remotes, Some(row), false) && Sound(row, remotes[|rows| - 1]) && SameTerms(row, rows[|rows| - 1])
  {
  }

  lemma StillWorking(rows: seq<Row>, remotes: seq<Remote>, row: Row)
    requires rows != [] && |rows| == |remotes| && SameTerms(row, rows[|rows| - 1]) && Truth(row, remotes[|rows| - 1])
    ensures Working(rows, remotes, Some(row), false)
    ensures Sound(row, remotes[|rows| - 1]) ==> Working(rows, remotes, Some(row), true)
  {
  }

  lemma SameObservation(a: Row, b: Row, m: Remote)
    requires Sound(a, m) && b.seen == a.seen && b.terminal == a.terminal
    ensures Sound(b, m)
  {
  }

  lemma WorldFollows(s: State, t: State, i: nat)
    requires World(s, t) && i < |s.rows|
    ensures Follows(s.remotes[i], t.remotes[i]) && s.now <= t.now
  {
    assert RemoteMoves(s.rows[i].createdAt, s.remotes[i], t.remotes[i], s.now, t.now);
  }

  /** The key's record changes, and nothing else. */
  lemma OneRemoteMoves(s: State, i: nat, m: Remote)
    requires Inv(s) && i < |s.rows| && RemoteMoves(s.rows[i].createdAt, s.remotes[i], m, s.now, s.now)
    ensures var t := s.(remotes := s.remotes[i := m]); World(s, t) && Inv(t)
  {
    var t := s.(remotes := s.remotes[i := m]);
    forall k | 0 <= k < |s.rows| ensures RemoteMoves(s.rows[k].createdAt, s.remotes[k], t.remotes[k], s.now, s.now) {
      assert AttemptOk(s, k);
    }
    WorldKeepsInv(s, t);
  }

  /** The creation request is sent, and reaches the provider if it is `answered`. */
  lemma RequestIsSent(s: State, i: nat, answered: bool) returns (m: Remote)
    requires Inv(s) && i < |s.rows| && s.now <= s.rows[i].createdAt + REPLAY_WINDOW
    ensures m == if answered && s.remotes[i].sessions == [] then Remote([Session(Open, NoSubscription)], s.now, Some(s.now))
                 else s.remotes[i].(lastSend := Some(s.now))
    ensures var t := s.(remotes := s.remotes[i := m]); World(s, t) && Inv(t)
  {
    m := if answered && s.remotes[i].sessions == [] then Remote([Session(Open, NoSubscription)], s.now, Some(s.now))
         else s.remotes[i].(lastSend := Some(s.now));
    assert AttemptOk(s, i);
    OneRemoteMoves(s, i, m);
  }

  lemma ExpirationIsGranted(s: State, i: nat)
    requires Inv(s) && i < |s.rows| && IsOpen(s.remotes[i])
    ensures var t := s.(remotes := s.remotes[i := s.remotes[i].(sessions := s.remotes[i].sessions[0 := Session(Expired, NoSubscription)])]);
            World(s, t) && Inv(t)
  {
    var m := s.remotes[i].(sessions := s.remotes[i].sessions[0 := Session(Expired, NoSubscription)]);
    assert AttemptOk(s, i);
    OneRemoteMoves(s, i, m);
  }

  lemma TransactionFollows(s: State, t: State)
    requires Transaction(s, t)
    ensures AllFollow(s.remotes, t.remotes, |s.rows|)
  {
    var m := State(s.rows, t.remotes[..|s.rows|], t.now);
    forall i | 0 <= i < |s.rows| ensures Follows(s.remotes[i], t.remotes[i]) { WorldFollows(s, m, i); }
  }

  lemma LateFollows(s: State, t: State, k: nat)
    requires k < |s.rows| == |s.remotes| && LateSend(s, t, k)
    ensures AllFollow(s.remotes, t.remotes, k)
  {
    forall i | 0 <= i < k ensures Follows(s.remotes[i], t.remotes[i]) {
      assert RemoteMoves(s.rows[i].createdAt, s.remotes[i], t.remotes[i], s.now, t.now);
    }
  }

  lemma AllFollowThemselves(a: seq<Remote>)
    ensures AllFollow(a, a, |a|)
  {
  }

  lemma AllFollowFurther(a: seq<Remote>, b: seq<Remote>, c: seq<Remote>, n: nat, k: nat)
    requires AllFollow(a, b, n) && AllFollow(b, c, k) && k <= n
    ensures AllFollow(a, c, k)
  {
  }

  lemma StepFollows(first: seq<Remote>, s: State, t: State, n: nat)
    requires AllFollow(first, s.remotes, n) && n <= |s.rows| && (World(s, t) || Commit(s, t))
    ensures AllFollow(first, t.remotes, n)
  {
    if World(s, t) {
      forall i | 0 <= i < n ensures Follows(first[i], t.remotes[i]) { WorldFollows(s, t, i); }
    }
  }

  lemma Lasts(s: State, t: State, i: nat, row: Row, at: int)
    requires World(s, t) && i < |s.rows| && row.createdAt == s.rows[i].createdAt
    ensures Truth(row, s.remotes[i]) ==> Truth(row, t.remotes[i])
    ensures SentSince(s.remotes[i], at) ==> SentSince(t.remotes[i], at)
  {
    assert RemoteMoves(row.createdAt, s.remotes[i], t.remotes[i], s.now, t.now);
  }

  lemma ExpiryIsSaved(s: State, i: nat)
    requires Inv(s) && i < |s.rows| && s.rows[i].seen.SeenExpired?
    ensures SavedExpired(s.rows, s.remotes, i)
  {
    assert AttemptOk(s, i);
  }

  lemma ExpiryIsTrue(row: Row, m: Remote)
    requires KnownExpired(row) && Truth(row, m)
    ensures Ended(row, m)
  {
  }

  lemma WorkingLasts(s: State, t: State, row: Row)
    requires World(s, t) && s.rows != [] && Working(s.rows, s.remotes, Some(row), true)
    ensures Working(t.rows, t.remotes, Some(row), true)
  {
    var i := |s.rows| - 1;
    TruthLasts(row, s.remotes[i], t.remotes[i], s.now, t.now);
  }

  lemma SavedIsSound(s: State, i: nat)
    requires Inv(s) && i < |s.rows|
    ensures Sound(s.rows[i], s.remotes[i]) && Truth(s.rows[i], s.remotes[i])
  {
    assert AttemptOk(s, i);
  }

  lemma TrueHasSession(r: Row, m: Remote)
    requires Truth(r, m) && !r.seen.Creating?
    ensures m.sessions != []
  {
  }

  lemma KnownHasSession(s: State, i: nat)
    requires Inv(s) && i < |s.rows| && !s.rows[i].seen.Creating?
    ensures s.remotes[i].sessions != []
  {
    assert AttemptOk(s, i);
  }

  lemma StillComplete(a: Row, b: Row, m: Remote)
    requires Truth(b, m) && b.seen == a.seen && b.terminal.Some?
    ensures Sound(b, m)
  {
  }

  lemma SavedIsWorking(s: State)
    requires Inv(s) && s.rows != []
    ensures Working(s.rows, s.remotes, Some(s.rows[|s.rows| - 1]), true)
    ensures Sound(s.rows[|s.rows| - 1], s.remotes[|s.rows| - 1])
  {
    assert AttemptOk(s, |s.rows| - 1);
  }

  /** `r` is the newest row as it is to be saved next to a successor with the given terms. */
  predicate HandsOver(rows: seq<Row>, r: Row, target: Target)
    requires rows != []
  {
    var last := rows[|rows| - 1];
    && r.target == last.target && r.createdAt == last.createdAt
    && (if IsPending(last) then
          && r.intent == Some(last.intent.value.(state := Replaced(|rows|)))
          && last.intent.value.target == target
        else r.intent == last.intent)
  }

  lemma FirstAttempt(s: State, t: State)
    requires Inv(s) && s.rows == [] && t.now == s.now && t.remotes == [UNUSED]
    requires |t.rows| == 1 && t.rows[0] == Row(t.rows[0].target, s.now, Creating, None, None)
    ensures Commit(s, t)
  {
  }

  lemma NextAttempt(s: State, r: Row, target: Target, t: State)
    requires Inv(s) && s.rows != [] && Finished(r, s.remotes[|s.rows| - 1]) && HandsOver(s.rows, r, target)
    requires r.createdAt < s.now
    requires t == State(s.rows[|s.rows| - 1 := r] + [Row(target, s.now, Creating, None, None)], s.remotes + [UNUSED], s.now)
    ensures Commit(s, t)
  {
    var n := |s.rows|;
    forall k | 0 <= k < n
      ensures t.rows[k].target == s.rows[k].target && t.rows[k].createdAt == s.rows[k].createdAt
      ensures Sound(t.rows[k], t.remotes[k])
    {
      assert AttemptOk(s, k);
    }
    hide Sound;
    forall k | 0 <= k < n ensures IntentMoves(s.rows, k, t.rows) {
      assert IntentOk(s, k);
    }
  }

  class Account {
    var rows: seq<Row>
    var remotes: seq<Remote>
    var now: int

    ghost function Value(): State
      reads this
    {
      State(rows, remotes, now)
    }

    ghost predicate Valid()
      reads this
    {
      |rows| == |remotes| && Inv(Value())
    }

    /** A transaction that started in `begun` is running and has committed nothing yet. */
    ghost predicate Running(begun: State)
      reads this
    {
      Valid() && Inv(begun) && World(begun, Value())
    }

    constructor (now: int)
      ensures Valid() && Value() == State([], [], now)
    {
      rows, remotes, this.now := [], [], now;
    }

    /** Time passes, and the provider does whatever it may do. */
    method Pass(ghost begun: State)
      requires Running(begun)
      modifies `remotes, `now
      ensures Running(begun) && World(old(Value()), Value())
    {
      NoTimePasses(Value());
      var next: seq<Remote>, later: int := *, *;
      if World(State(rows, remotes, now), State(rows, next, later)) {
        WorldKeepsInv(Value(), State(rows, next, later));
        WorldIsTransitive(begun, Value(), State(rows, next, later));
        remotes, now := next, later;
      }
    }

    /** Retrieve the session of attempt `i`: true when it was served, possibly overtaken since. */
    method GetSession(ghost begun: State, i: nat, line: Line) returns (view: Option<View>)
      requires Running(begun) && i < |rows|
      modifies `remotes, `now
      ensures Running(begun) && World(old(Value()), Value())
      ensures view.Some? ==> Reliable(view.value, remotes[i]) && (view.value.status.Expired? ==> !view.value.subscribed)
      ensures view.Some? && old(remotes[i].sessions) != [] ==>
                && (!old(remotes[i].sessions[0].status.Open?) ==> view.value.status == old(remotes[i].sessions[0].status))
                && (Bought(old(remotes[i])) ==> view.value.subscribed)
      ensures view.Some? && Unsold(remotes[i]) ==> !view.value.subscribed && !view.value.status.Complete?
      ensures view.Some? && IsOpen(remotes[i]) ==> view.value.status.Open?
      ensures line.Up? && old(remotes[i].sessions) != [] ==>
                view.Some? && view.value == FreshPage(line).(status := view.value.status, subscribed := view.value.subscribed)
      ensures line.Down? ==> view.None?
    {
      view := None;
      Pass(begun);
      assert AttemptOk(Value(), i);
      var reply: Option<View>, early: bool := *, *;
      if remotes[i].sessions != [] {
        // A subscription can exist before its session says so.
        var session := remotes[i].sessions[0];
        var subscribed := !session.subscription.NoSubscription? && (session.status.Complete? || early);
        if line.Up? {
          view := Some(View(session.status, subscribed, line.unpaid, line.recovery, line.redirectable));
        } else if line.Flaky? && reply.Some? && reply.value.status == session.status && reply.value.subscribed == subscribed {
          view := reply;
        }
      }
      ghost var served := Value();
      Pass(begun);
      assert RemoteMoves(rows[i].createdAt, served.remotes[i], remotes[i], served.now, now);
      WorldIsTransitive(old(Value()), served, Value());
    }

    /** Send the creation request again or for the first time. The answer may be the original response,
        so it says nothing about what happened to the session since. */
    method PostSession(ghost begun: State, i: nat, line: Line) returns (view: Option<View>)
      requires Running(begun) && i < |rows| && now <= rows[i].createdAt + REPLAY_WINDOW
      modifies `remotes, `now
      ensures Running(begun) && World(old(Value()), Value())
      ensures view.Some? ==> Reliable(view.value, remotes[i])
      ensures SentSince(remotes[i], old(now))
      ensures match line
              case Up(_, _, _, _) => view == Some(FreshPage(line)) && remotes[i].sessions != []
              case Down => view.None?
              case Flaky => true
    {
      ghost var before := Value();
      ghost var m := RequestIsSent(before, i, line.Up?);
      if line.Up? && remotes[i].sessions == [] {
        remotes := remotes[i := Remote([Session(Open, NoSubscription)], now, Some(now))];
      } else {
        remotes := remotes[i := remotes[i].(lastSend := Some(now))];
      }
      WorldIsTransitive(begun, before, Value());
      ghost var sent := Value();
      Pass(begun);
      WorldIsTransitive(before, sent, Value());
      assert RemoteMoves(rows[i].createdAt, sent.remotes[i], remotes[i], sent.now, now);
      if line.Up? { return Some(FreshPage(line)); }
      var reply: Option<View> := *;
      view := if line.Flaky? && reply.Some? && Reliable(reply.value, remotes[i]) then reply else None;
    }

    method ObserveSubscription(ghost begun: State, i: nat, row: Row, line: Line) returns (o: Observation)
      requires Running(begun) && i < |rows| && row.createdAt == rows[i].createdAt && Truth(row, remotes[i])
      modifies `remotes, `now
      ensures Running(begun) && World(old(Value()), Value())
      ensures Truth(o.row, remotes[i]) && SameTerms(o.row, row) && o.row.seen == row.seen
      ensures o.view.None? && if o.ok then o.row.terminal.Some? && !row.seen.SeenExpired? else o.row == row
      ensures o.ok ==> Reported(o.row.terminal, old(remotes[i]), remotes[i])
      ensures line.Up? && old(remotes[i].sessions) != [] && !old(remotes[i].sessions[0].subscription.NoSubscription?) ==> o.ok
      ensures line.Down? ==> !o.ok
    {
      ghost var before := Value();
      Pass(begun);
      TruthLasts(row, before.remotes[i], remotes[i], before.now, now);
      assert AttemptOk(Value(), i);
      o := Observation(false, row, None);
      var replied: bool := *;
      if (line.Up? || (line.Flaky? && replied)) && remotes[i].sessions != [] && !remotes[i].sessions[0].subscription.NoSubscription? {
        o := Observation(true, row.(terminal := Some(remotes[i].sessions[0].subscription.Terminal?)), None);
      }
      ghost var served := Value();
      Pass(begun);
      TruthLasts(o.row, served.remotes[i], remotes[i], served.now, now);
      assert RemoteMoves(row.createdAt, served.remotes[i], remotes[i], served.now, now);
      WorldIsTransitive(before, served, Value());
    }

    /** Take over a reported session; a completion without its subscription is not accepted yet. */
    method ObserveCheckout(ghost begun: State, i: nat, row: Row, view: View, line: Line) returns (o: Observation)
      requires Running(begun) && i < |rows| && row.createdAt == rows[i].createdAt
      requires Truth(row, remotes[i]) && Reliable(view, remotes[i])
      modifies `remotes, `now
      ensures Running(begun) && World(old(Value()), Value())
      ensures Truth(o.row, remotes[i]) && SameTerms(o.row, row) && o.row.seen == SeenAs(view.status)
      ensures o.ok ==> Sound(o.row, remotes[i]) && (view.subscribed ==> o.row.terminal.Some? && !o.row.seen.SeenExpired?)
      ensures !o.ok || !view.subscribed ==> o.row.terminal == row.terminal
      ensures !view.subscribed ==> (o.ok <==> !view.status.Complete?)
      ensures view.subscribed && o.ok ==> Reported(o.row.terminal, old(remotes[i]), remotes[i])
      ensures view.subscribed && line.Up? ==> o.ok
    {
      var seen := row.(seen := SeenAs(view.status));
      NoTimePasses(Value());
      if view.subscribed {
        o := ObserveSubscription(begun, i, seen, line);
      } else {
        o := Observation(!view.status.Complete?, seen, None);
      }
    }

    /** Refresh a row from whatever identifier it holds. */
    method Sync(ghost begun: State, i: nat, row: Row, line: Line) returns (o: Observation)
      requires Running(begun) && i < |rows| && row.createdAt == rows[i].createdAt && Sound(row, remotes[i])
      modifies `remotes, `now
      ensures Running(begun) && World(old(Value()), Value())
      ensures Truth(o.row, remotes[i]) && SameTerms(o.row, row)
      ensures o.ok ==> Sound(o.row, remotes[i]) && (o.view.Some? <==> !row.seen.Creating?)
      ensures o.ok && o.view.Some? ==> o.row.seen == SeenAs(o.view.value.status)
      ensures o.view.None? ==> o.row.seen == row.seen
      ensures row.seen.SeenExpired? && row.terminal.None? ==> o.row.seen.SeenExpired? && o.row.terminal.None?
      ensures Follows(old(remotes[i]), remotes[i]) && old(now) <= now
      ensures Looked(row, o, old(remotes[i]), remotes[i], line)
      ensures row.seen.Creating? && row.terminal.None? ==> remotes == old(remotes) && now == old(now)
    {
      NoTimePasses(Value());
      if row.seen.Creating? {
        if row.terminal.Some? {
          ghost var started := Value();
          o := ObserveSubscription(begun, i, row, line);
          WorldFollows(started, Value(), i);
        } else {
          o := Observation(true, row, None);
        }
        return;
      }
      ghost var before := Value();
      var view := GetSession(begun, i, line);
      ghost var read := Value();
      TruthLasts(row, before.remotes[i], remotes[i], before.now, now);
      WorldFollows(before, read, i);
      assert AttemptOk(Value(), i);
      if view.None? { return Observation(false, row, None); }
      o := ObserveCheckout(begun, i, row, view.value, line);
      WorldFollows(read, Value(), i);
      WorldIsTransitive(before, read, Value());
      if o.ok && o.row.terminal.Some? && !view.value.subscribed {
        ghost var observed := Value();
        o := ObserveSubscription(begun, i, o.row, line);
        WorldFollows(observed, Value(), i);
        WorldIsTransitive(before, observed, Value());
      }
      assert AttemptOk(Value(), i);
      o := o.(view := view);
    }

    /** Commit a changed row. */
    method Save(ghost begun: State, i: nat, row: Row)
      requires Running(begun) && i < |rows|
      requires row.target == rows[i].target && row.createdAt == rows[i].createdAt && Sound(row, remotes[i])
      requires IntentMoves(rows, i, rows[i := row])
      modifies `rows
      ensures Valid() && Transaction(begun, Value())
      ensures rows == old(rows)[i := row]
    {
      ghost var before := Value();
      rows := rows[i := row];
      assert remotes[..|begun.rows|] == remotes;
      forall k | 0 <= k < |rows|
        ensures Sound(rows[k], remotes[k]) && IntentMoves(before.rows, k, rows)
      {
        assert AttemptOk(before, k);
      }
      CommitKeepsInv(before, Value());
    }

    /** Commit a new attempt, and with it the consent it carries out. */
    method Add(ghost begun: State, target: Target, previous: Option<Row>)
      requires Running(begun) && (previous.Some? <==> rows != [])
      requires previous.Some? ==> Finished(previous.value, remotes[|rows| - 1]) && HandsOver(rows, previous.value, target)
      modifies this
      ensures Valid() && Transaction(begun, Value())
      ensures |rows| == |old(rows)| + 1 && remotes[..|old(rows)|] == old(remotes) && old(now) <= now
      ensures rows[..|old(rows)|] == if previous.None? then [] else old(rows)[|old(rows)| - 1 := previous.value]
      ensures rows[|old(rows)|] == Row(target, now, Creating, None, None)
    {
      var n := |rows|;
      if previous.Some? && now <= previous.value.createdAt {
        // The clock has moved on since the previous attempt was saved.
        ghost var before := Value();
        now := previous.value.createdAt + 1;
        TimeAlonePasses(before, now);
        WorldIsTransitive(begun, before, Value());
      }
      ghost var mid := Value();
      rows := (if previous.None? then [] else rows[n - 1 := previous.value]) + [Row(target, now, Creating, None, None)];
      remotes := remotes + [UNUSED];
      assert remotes[..n] == mid.remotes;
      if previous.None? { FirstAttempt(mid, Value()); } else { NextAttempt(mid, previous.value, target, Value()); }
      CommitKeepsInv(mid, Value());
    }

    /** Save an observation and refuse the request. */
    method Keep(ghost begun: State, row: Row) returns (r: Started)
      requires Running(begun) && rows != [] && Working(rows, remotes, Some(row), true)
      modifies `rows
      ensures Valid() && Transaction(begun, Value()) && r == Refused(true)
      ensures Observed(old(rows), rows) && rows == old(rows)[|rows| - 1 := row]
    {
      Save(begun, |rows| - 1, row);
      r := Refused(true);
    }

    /** Send the creation request and take over its answer. */
    method PostAndObserve(ghost begun: State, i: nat, row: Row, line: Line) returns (o: Observation)
      requires Running(begun) && i < |rows| && row.createdAt == rows[i].createdAt && Truth(row, remotes[i])
      requires now <= row.createdAt + REPLAY_WINDOW
      modifies `remotes, `now
      ensures Running(begun) && Truth(o.row, remotes[i]) && SameTerms(o.row, row) && SentSince(remotes[i], old(now))
      ensures o.ok ==> Sound(o.row, remotes[i]) && o.view.Some? && o.row.seen == SeenAs(o.view.value.status)
      ensures Follows(old(remotes[i]), remotes[i]) && old(now) <= now
      ensures line.Up? ==> o == Observation(true, row.(seen := SeenOpen), Some(FreshPage(line))) && remotes[i].sessions != []
      ensures line.Down? ==> !o.ok
    {
      hide World, Inv, Sound, Truth, SentSince, Reliable, Reported;
      ghost var before := Value();
      var view := PostSession(begun, i, line);
      ghost var sent := Value();
      WorldFollows(before, sent, i);
      Lasts(before, sent, i, row, before.now);
      if view.None? { return Observation(false, row, None); }
      o := ObserveCheckout(begun, i, row, view.value, line);
      WorldFollows(sent, Value(), i);
      Lasts(sent, Value(), i, row, before.now);
      o := o.(view := view);
    }

    /** The creation request for the newest attempt, its answer saved. */
    method Submit(ghost begun: State, row: Row, line: Line) returns (r: Started, seen: Row)
      requires Running(begun) && rows != [] && Working(rows, remotes, Some(row), true)
      requires now <= row.createdAt + REPLAY_WINDOW
      modifies this
      ensures Valid() && Transaction(begun, Value())
      ensures r == Refused(false) ==> Running(begun) && rows == old(rows) && Working(rows, remotes, Some(seen), false)
      ensures Observed(old(rows), rows) && !r.Saved? && SentSince(remotes[|rows| - 1], old(now))
      ensures r.Url? ==> r.attempt + 1 == |rows| && rows[r.attempt].seen.SeenOpen?
      ensures Follows(old(remotes[|rows| - 1]), remotes[|rows| - 1]) && old(now) <= now
      ensures line.Up? ==>
                && r == (if line.redirectable then Url(|rows| - 1) else Refused(true))
                && rows == old(rows)[|rows| - 1 := row.(seen := SeenOpen)]
      ensures line.Down? ==> r == Refused(false)
    {
      WorkingStaysTrue(rows, remotes, row);
      hide World, Transaction, Inv, Sound, Truth, SentSince, Follows;
      var o := PostAndObserve(begun, |rows| - 1, row, line);
      seen := o.row;
      RollbackIsATransaction(begun, Value());
      if !o.ok { return Refused(false), seen; }
      r := Keep(begun, seen);
      if seen.seen.SeenOpen? && o.view.value.redirectable { r := Url(|rows| - 1); }
    }

    /** An unfinished attempt with the requested terms: show its page again, or send its request again. */
    method Offer(ghost begun: State, row: Row, view: Option<View>, line: Line) returns (r: Started, seen: Row)
      requires Running(begun) && rows != [] && Working(rows, remotes, Some(row), true) && Unfinished(row)
      modifies this
      ensures Valid() && Transaction(begun, Value())
      ensures r == Refused(false) ==> Running(begun) && rows == old(rows) && Working(rows, remotes, Some(seen), false)
      ensures Observed(old(rows), rows) && |rows| == |old(rows)| && !r.Saved?
      ensures r.Url? ==> r.attempt + 1 == |rows| && rows[r.attempt].seen.SeenOpen?
      ensures Answers(row, view, row.target) ==> if view.value.redirectable then r.Url? else r == Refused(false)
      ensures !Answers(row, view, row.target) ==>
                if row.createdAt + REPLAY_WINDOW < old(now) then r == Refused(true)
                else SentSince(remotes[|rows| - 1], old(now))
                     && (line.Up? ==> r == if line.redirectable then Url(|rows| - 1) else Refused(true))
      ensures Follows(old(remotes[|rows| - 1]), remotes[|rows| - 1]) && old(now) <= now
    {
      FollowsItself(remotes[|rows| - 1]);
      hide World, Transaction, Inv, Sound, Truth, IntentMoves, Follows;
      seen := row;
      WorkingStaysTrue(rows, remotes, row);
      RollbackIsATransaction(begun, Value());
      if view.Some? && row.seen.SeenOpen? {
        if !view.value.redirectable { return Refused(false), seen; }
        r := Keep(begun, row);
        return Url(|rows| - 1), seen;
      }
      if now - row.createdAt > REPLAY_WINDOW { r := Keep(begun, row); return; }
      r, seen := Submit(begun, row, line);
    }

    /** What to do about a request once the newest attempt has been looked at. */
    method Decide(ghost begun: State, row: Row, view: Option<View>, planOk: bool, line: Line,
                  target: Target, expected: Option<nat>, source: Option<nat>)
      returns (r: Started, seen: Row)
      requires Running(begun) && rows != [] && Working(rows, remotes, Some(row), true)
      requires expected.Some? ==> expected.value == |rows| - 1
      requires if source.Some?
               then source.value == |rows| - 1 && KnownExpired(row) && IsPending(row) && row.intent.value.target == target
               else !IsPending(row)
      modifies this
      ensures Valid() && Transaction(begun, Value())
      ensures r == Refused(false) ==> Running(begun) && Working(rows, remotes, Some(seen), false)
      ensures Concluded(old(rows), rows, r, target, expected, source)
      ensures Decision(row, view, planOk, line, target, expected, source, old(now), r, |old(rows)|)
      ensures |old(rows)| <= |rows| && Follows(old(remotes[|rows| - 1]), remotes[|old(rows)| - 1]) && old(now) <= now
      ensures r.Saved? ==> planOk && rows[r.attempt].createdAt == now
      ensures r == Refused(false) && !Unfinished(row) ==> seen == row
      ensures r.Saved? ==> rows[|old(rows)| - 1].seen == row.seen
    {
      hide World, Transaction, Inv, Sound, Truth, IntentMoves, Follows, Concluded, Observed;
      WorkingStaysTrue(rows, remotes, row);
      FollowsItself(remotes[|rows| - 1]);
      ghost var before := rows;
      seen := row;
      if HasLive(row) || (Unfinished(row) && row.target != target) {
        r := Keep(begun, row);
      } else if Unfinished(row) {
        r, seen := Offer(begun, row, view, line);
      } else {
        r := Renew(begun, row, planOk, target, expected, source);
        return;
      }
      ObservedConcludes(before, rows, row, r, target, expected, source);
    }

    /** The newest attempt is over: add another one, unless the caller expects this one. */
    method Renew(ghost begun: State, row: Row, planOk: bool, target: Target, expected: Option<nat>, source: Option<nat>)
      returns (r: Started)
      requires Running(begun) && rows != [] && Working(rows, remotes, Some(row), true) && !Unfinished(row) && !HasLive(row)
      requires expected.Some? ==> expected.value == |rows| - 1
      requires if source.Some?
               then source.value == |rows| - 1 && IsPending(row) && row.intent.value.target == target
               else !IsPending(row)
      modifies this
      ensures Valid() && Transaction(begun, Value()) && Concluded(old(rows), rows, r, target, expected, source)
      ensures r == Refused(false) ==> Running(begun) && Working(rows, remotes, Some(row), false)
      ensures r == if expected.Some? && source.None? then Refused(true) else if planOk then Saved(|old(rows)|) else Refused(false)
      ensures |old(rows)| <= |rows| && Follows(old(remotes[|rows| - 1]), remotes[|old(rows)| - 1]) && old(now) <= now
      ensures r.Saved? ==> rows[r.attempt].createdAt == now && rows[|old(rows)| - 1].seen == row.seen
    {
      hide World, Transaction, Inv, Sound, Truth, IntentMoves, Follows, Concluded, Observed;
      FollowsItself(remotes[|rows| - 1]);
      WorkingStaysTrue(rows, remotes, row);
      RollbackIsATransaction(begun, Value());
      ghost var before := rows;
      if expected.Some? && source.None? {
        r := Keep(begun, row);
        ObservedConcludes(before, rows, row, r, target, expected, source);
        return;
      }
      if !planOk {
        RefusalConcludes(rows, target, expected, source);
        return Refused(false);
      }
      var i := |rows| - 1;
      var previous := if source.Some? then row.(intent := Some(row.intent.value.(state := Replaced(i + 1)))) else row;
      OverIsFinished(row, remotes[i], previous.intent);
      Add(begun, target, Some(previous));
      r := Saved(i + 1);
      AdditionConcludes(before, rows, row, previous, target, expected, source);
    }

    /** Look at the newest attempt and answer the request from it. */
    method Serve(ghost begun: State, row: Row, planOk: bool, line: Line,
                 target: Target, expected: Option<nat>, source: Option<nat>)
      returns (r: Started, seen: Row, looked: bool)
      requires Running(begun) && rows != [] && Working(rows, remotes, Some(row), true)
      requires expected.Some? ==> expected.value == |rows| - 1
      requires if source.Some?
               then source.value == |rows| - 1 && KnownExpired(row) && IsPending(row) && row.intent.value.target == target
               else !IsPending(row)
      modifies this
      ensures Valid() && Transaction(begun, Value())
      ensures r == Refused(false) ==> Running(begun) && Working(rows, remotes, Some(seen), false)
      ensures Concluded(old(rows), rows, r, target, expected, source)
      ensures r.Saved? ==> planOk && rows[r.attempt].createdAt == now
      ensures source.Some? ==>
                && r != Refused(true) && (looked ==> r == if planOk then Saved(|old(rows)|) else Refused(false))
                && (r.Saved? ==> looked && rows[source.value].seen.SeenExpired?) && (r == Refused(false) ==> KnownExpired(seen))
                && (line.Up? ==> looked)
      ensures |old(rows)| <= |rows| && Follows(old(remotes[|rows| - 1]), remotes[|old(rows)| - 1]) && old(now) <= now
      ensures source.None? ==>
                Served(row, old(remotes[|rows| - 1]), remotes[|old(rows)| - 1], line, planOk, target, expected,
                       old(now), now, r, |old(rows)|)
    {
      hide World, Transaction, Inv, Sound, Truth, Looked, Served, Follows, Decision, Working, Concluded;
      ghost var i, before, from := |rows| - 1, remotes[|rows| - 1], now;
      var o := Look(begun, row, line);
      ghost var mid, at := remotes[i], now;
      seen, looked := o.row, o.ok;
      if !o.ok {
        r := Refused(false);
        FollowsItself(mid);
        RefusalConcludes(rows, target, expected, source);
      } else {
        r, seen := Decide(begun, o.row, o.view, planOk, line, target, expected, source);
        if source.Some? { SourceMakesRoom(o.row, o.view, planOk, line, target, expected, source, at, r, i + 1); }
      }
      FollowsFurther(before, mid, remotes[i]);
      if source.None? {
        DecidedIsServed(row, o, before, mid, remotes[i], line, planOk, target, expected, from, at, now, r, i + 1);
      }
    }

    /** Refresh the copy of the newest row. */
    method Look(ghost begun: State, row: Row, line: Line) returns (o: Observation)
      requires Running(begun) && rows != [] && Working(rows, remotes, Some(row), true)
      modifies `remotes, `now
      ensures Running(begun) && Transaction(begun, Value()) && SameTerms(o.row, row)
      ensures Working(rows, remotes, Some(o.row), o.ok)
      ensures Looked(row, o, old(remotes[|rows| - 1]), remotes[|rows| - 1], line)
      ensures KnownExpired(row) ==> KnownExpired(o.row) && (line.Up? ==> o.ok)
      ensures row.seen.Creating? && row.terminal.None? ==> now == old(now)
      ensures !row.seen.Creating? ==> old(remotes[|rows| - 1].sessions) != []
      ensures Follows(old(remotes[|rows| - 1]), remotes[|rows| - 1]) && old(now) <= now
    {
      ghost var i, before := |rows| - 1, remotes[|rows| - 1];
      WorkingStaysTrue(rows, remotes, row);
      if KnownExpired(row) { ExpiryIsTrue(row, before); }
      if !row.seen.Creating? { TrueHasSession(row, before); }
      hide World, Transaction, Inv, Sound, Truth, Looked, Follows, Ended, Working;
      o := Sync(begun, |rows| - 1, row, line);
      RollbackIsATransaction(begun, Value());
      StillWorking(rows, remotes, o.row);
      if KnownExpired(row) && line.Up? { ExpiryIsSeen(row, o, before, remotes[i], line); }
    }

    /** Start a checkout, given the newest row as this transaction has observed it so far. */
    method StartWith(ghost begun: State, working: Option<Row>, facts: Facts, line: Line,
                     target: Target, expected: Option<nat>, source: Option<nat>)
      returns (r: Started, seen: Option<Row>, looked: bool)
      requires Running(begun) && Working(rows, remotes, working, true)
      modifies this
      ensures Valid() && Transaction(begun, Value())
      ensures r == Refused(false) ==> Running(begun) && Working(rows, remotes, seen, false)
      ensures Concluded(old(rows), rows, r, target, expected, source)
      ensures Closed(old(rows), working, facts, target, expected, source) ==> r == Refused(false)
      ensures !Closed(old(rows), working, facts, target, expected, source) && old(rows) == [] ==>
                r == if facts.planOk then Saved(0) else Refused(false)
      ensures r.Saved? ==> facts.allowed && facts.planOk && rows[r.attempt].createdAt == now
      ensures source.Some? && !Closed(old(rows), working, facts, target, expected, source) && looked ==>
                r == if facts.planOk then Saved(|old(rows)|) else Refused(false)
      ensures source.Some? && working.Some? && KnownExpired(working.value) ==>
                && r != Refused(true) && (r.Saved? ==> looked) && (r == Refused(false) ==> KnownExpired(seen.value))
                && (line.Up? ==> looked) && (r.Saved? ==> rows[source.value].seen.SeenExpired?)
      ensures |old(rows)| <= |rows| && old(now) <= now
      ensures old(rows) != [] ==> Follows(old(remotes[|rows| - 1]), remotes[|old(rows)| - 1])
      ensures source.None? && old(rows) != [] && !Closed(old(rows), working, facts, target, expected, source) ==>
                Served(working.value, old(remotes[|rows| - 1]), remotes[|old(rows)| - 1], line, facts.planOk, target, expected,
                       old(now), now, r, |old(rows)|)
    {
      hide World, Transaction, Inv, Sound, Truth;
      seen, looked := working, true;
      RollbackIsATransaction(begun, Value());
      if working.Some? { WorkingStaysTrue(rows, remotes, working.value); }
      if !facts.allowed { return Refused(false), seen, true; }
      if expected.Some? && (rows == [] || |rows| - 1 != expected.value) { return Refused(false), seen, true; }
      if source.Some? {
        if rows == [] || |rows| - 1 != source.value || !working.value.seen.SeenExpired? || working.value.terminal.Some?
           || !IsPending(working.value) || working.value.intent.value.target != target {
          return Refused(false), seen, true;
        }
      } else if rows != [] && IsPending(working.value) {
        return Refused(false), seen, true;
      }
      if rows == [] {
        if !facts.planOk { return Refused(false), seen, true; }
        Add(begun, target, None);
        return Saved(0), None, true;
      }
      hide Concluded, Served, Follows;
      var row: Row;
      r, row, looked := Serve(begun, working.value, facts.planOk, line, target, expected, source);
      seen := Some(row);
    }

    method Begin() returns (ghost begun: State, working: Option<Row>)
      requires Valid()
      modifies `remotes, `now
      ensures begun == old(Value()) && Running(begun) && Working(rows, remotes, working, true)
      ensures working == if rows == [] then None else Some(rows[|rows| - 1])
    {
      begun := Value();
      NoTimePasses(begun);
      Pass(begun);
      if rows == [] { return begun, None; }
      SavedIsWorking(Value());
      working := Some(rows[|rows| - 1]);
    }

    /** First transaction of a start: answer from the newest attempt, or save a new one. */
    method StartFirst(facts: Facts, line: Line, target: Target, expected: Option<nat>) returns (r: Started)
      requires Valid()
      modifies this
      ensures Valid() && Transaction(old(Value()), Value())
      ensures Concluded(old(rows), rows, r, target, expected, None)
      ensures !facts.allowed || (expected.Some? && |old(rows)| != expected.value + 1) ==> r == Refused(false)
      ensures facts.allowed && expected.None? && old(rows) == [] ==> r == if facts.planOk then Saved(0) else Refused(false)
      ensures r.Saved? ==> rows[r.attempt].createdAt == now
      ensures facts.allowed && old(rows) != [] && !IsPending(old(rows)[|old(rows)| - 1])
              && (expected.None? || expected.value + 1 == |old(rows)|) ==>
                Served(old(rows)[|old(rows)| - 1], old(remotes[|rows| - 1]), remotes[|old(rows)| - 1], line, facts.planOk,
                       target, expected, old(now), now, r, |old(rows)|)
    {
      ghost var begun: State;
      var working, seen, looked;
      hide Concluded, Served, Follows, Transaction, Inv, World, Working, Closed;
      begun, working := Begin();
      ghost var granted := Value();
      ClosedIff(rows, working, facts, target, expected);
      if rows != [] { WorldFollows(begun, granted, |rows| - 1); }
      r, seen, looked := StartWith(begun, working, facts, line, target, expected, None);
      if begun.rows != [] && !Closed(begun.rows, working, facts, target, expected, None) {
        var i := |begun.rows| - 1;
        ServedSince(begun.rows[i], begun.remotes[i], granted.remotes[i], remotes[i], line, facts.planOk, target, expected,
                    begun.now, granted.now, now, r, i + 1);
      }
    }

    /** The request of attempt `k` has been sent when the attempt was too old. */
    predicate SentLate(k: nat)
      reads this
    {
      && k < |rows| == |remotes| && remotes[k].lastSend.Some?
      && rows[k].createdAt + REPLAY_WINDOW < remotes[k].lastSend.value
    }

    /** Second transaction of a start: send the request of the attempt just saved. Only the newest attempt without
        pending consent is served. The age of the attempt is not checked: the request is sent `late` exactly if it must
        be sent and the lock was `granted` after the replay window. */
    method Deliver(k: nat, closing: bool, line: Line) returns (r: Started, granted: State, late: bool)
      requires Valid() && k < |rows|
      modifies this
      ensures World(old(Value()), granted)
      ensures late <==> MustSend(old(rows), k, closing) && old(rows)[k].createdAt + REPLAY_WINDOW < granted.now
      ensures closing || k + 1 != |old(rows)| || IsPending(old(rows)[k]) ==> r == Refused(false) && rows == old(rows)
      ensures !late ==>
                && Valid() && Transaction(old(Value()), Value()) && Observed(old(rows), rows) && !r.Saved?
                && (r.Url? ==> r.attempt == k == |rows| - 1 && rows[k].seen.SeenOpen?)
                && (MustSend(old(rows), k, closing) ==> SentSince(remotes[k], granted.now))
      ensures late ==>
                SentLate(k) && Observed(old(rows), rows) && LateSend(granted, State(granted.rows, remotes, now), k)
      ensures !late && MustSend(old(rows), k, closing) ==>
                && (line.Up? ==> r == if line.redirectable then Url(k) else Refused(true))
                && (line.Down? ==> r == Refused(false))
      ensures !closing && k + 1 == |old(rows)| && !IsPending(old(rows)[k]) && !old(rows)[k].seen.Creating?
              && old(rows)[k].terminal.None? && line.Up? ==>
                && (IsOpen(remotes[k]) ==> r == if line.redirectable then Url(k) else Refused(true))
                && (Ended(old(rows)[k], old(remotes[k])) ==> r == Refused(true))
      ensures AllFollow(old(remotes), remotes, k)
    {
      hide World, Transaction, Sound, Truth, LateSend, SentSince;
      ghost var begun := Value();
      late := false;
      NoTimePasses(begun);
      Pass(begun);
      granted := State(rows, remotes, now);
      RollbackIsATransaction(begun, Value());
      TransactionFollows(begun, Value());
      var row := rows[k];
      if closing || k != |rows| - 1 || IsPending(row) { return Refused(false), granted, false; }
      SavedIsWorking(Value());
      if row.terminal == Some(false) { r := Keep(begun, row); return; }
      if !row.seen.Creating? {
        var o := Sync(begun, k, row, line);
        RollbackIsATransaction(begun, Value());
        TransactionFollows(begun, Value());
        if !o.ok { return Refused(false), granted, false; }
        r := Keep(begun, o.row);
        if o.row.seen.SeenOpen? && o.view.value.redirectable { r := Url(k); }
        return;
      }
      late := now > row.createdAt + REPLAY_WINDOW;
      if late {
        r := SubmitLate(k);
        LateFollows(granted, State(granted.rows, remotes, now), k);
        AllFollowFurther(begun.remotes, granted.remotes, remotes, k, k);
      } else {
        var seen;
        r, seen := Submit(begun, row, line);
        TransactionFollows(begun, Value());
      }
    }

    /** What happens then is outside the window in which the provider is sure to recognise the request. */
    method SubmitLate(k: nat) returns (r: Started)
      requires Valid() && k < |rows| && rows[k].createdAt + REPLAY_WINDOW < now
      modifies this
      ensures SentLate(k) && Observed(old(rows), rows)
      ensures LateSend(old(Value()), State(old(rows), remotes, now), k)
    {
      var next: seq<Remote>, later: int, observed: Row := *, *, *;
      if |next| == |rows| && LateSend(State(rows, remotes, now), State(rows, next, later), k) {
        remotes, now := next, later;
      } else {
        forall i | 0 <= i < |rows| ensures RemoteMoves(rows[i].createdAt, remotes[i], remotes[i], now, now) {
          assert AttemptOk(Value(), i);
        }
        remotes := remotes[k := remotes[k].(lastSend := Some(now))];
        assert AttemptOk(old(Value()), k);
      }
      r := Refused(false);
      if SameTerms(observed, rows[k]) && Sound(observed, remotes[k]) {
        rows := rows[k := observed];
        r := if observed.seen.SeenOpen? then Url(k) else Refused(true);
      }
    }

    /** Establish what the provider really holds for the newest attempt, recovering an unknown first
        answer by repeating the same request. */
    method GetCanonical(ghost begun: State, row: Row, line: Line) returns (v: Verified, seen: Row)
      requires Running(begun) && rows != [] && Working(rows, remotes, Some(row), true)
      modifies `remotes, `now
      ensures Running(begun) && Working(rows, remotes, Some(seen), false)
      ensures !v.Fail? ==> Working(rows, remotes, Some(seen), true)
      ensures v.Canonical? ==>
                && !v.view.status.Complete? && seen.seen == SeenAs(v.view.status) && seen.terminal.None?
                && remotes[|rows| - 1].sessions != []
      ensures KnownExpired(row) ==> KnownExpired(seen) && (v.Canonical? ==> v.view.status.Expired?)
      ensures line.Up? && Known(row, now) && Unsold(remotes[|rows| - 1]) ==>
                if line.unpaid && !line.recovery then v.Canonical? && (IsOpen(remotes[|rows| - 1]) ==> v.view.status.Open?)
                else v.Stop?
      ensures line.Up? && Known(row, now) && Ended(row, old(remotes[|rows| - 1])) ==>
                Unsold(remotes[|rows| - 1]) && (v.Canonical? ==> v.view.status.Expired?)
      ensures line.Down? && row.terminal.None? ==> v.Fail?
      ensures Follows(old(remotes[|rows| - 1]), remotes[|rows| - 1]) && old(now) <= now
    {
      hide World, Sound, Truth;
      var i := |rows| - 1;
      WorkingStaysTrue(rows, remotes, row);
      var o := Sync(begun, i, row, line);
      if o.ok && o.view.None? && o.row.terminal.None? {
        if now - row.createdAt > REPLAY_WINDOW { return Fail, o.row; }
        o := Recover(begun, i, o.row, line);
      }
      seen := o.row;
      if !o.ok { return Fail, seen; }
      if seen.terminal.Some? || o.view.None? || o.view.value.status.Complete? { return Stop, seen; }
      if !o.view.value.unpaid || o.view.value.recovery { return Stop, seen; }
      v := Canonical(o.view.value);
    }

    method Recover(ghost begun: State, i: nat, row: Row, line: Line) returns (o: Observation)
      requires Running(begun) && i < |rows| && row.createdAt == rows[i].createdAt && Sound(row, remotes[i])
      requires now <= row.createdAt + REPLAY_WINDOW
      modifies `remotes, `now
      ensures Running(begun) && Truth(o.row, remotes[i]) && SameTerms(o.row, row)
      ensures o.ok ==> Sound(o.row, remotes[i]) && o.view.Some? && o.row.seen == SeenAs(o.view.value.status)
      ensures Follows(old(remotes[i]), remotes[i]) && old(now) <= now
      ensures line.Up? && row.terminal.None? && Unsold(remotes[i]) ==>
                && o.ok && o.view.value == FreshPage(line).(status := o.view.value.status)
                && o.row == row.(seen := SeenAs(o.view.value.status)) && !o.row.seen.SeenComplete?
                && (IsOpen(remotes[i]) ==> o.row.seen.SeenOpen?)
      ensures line.Up? && Ended(row, old(remotes[i])) ==> Unsold(remotes[i]) && o.row.seen.SeenExpired?
      ensures line.Down? ==> !o.ok
    {
      o := PostAndObserve(begun, i, row, line);
      if o.ok { o := Sync(begun, i, o.row, line); }
    }

    /** Withdraw the pending consent of the newest attempt, keeping what was observed. */
    method Withdraw(ghost begun: State, row: Row)
      requires Running(begun) && rows != [] && Working(rows, remotes, Some(row), true) && IsPending(row)
      modifies `rows
      ensures Valid() && Transaction(begun, Value())
      ensures rows == old(rows)[|rows| - 1 := Withdrawn(row)]
    {
      Save(begun, |rows| - 1, Withdrawn(row));
    }

    /** First transaction of a replacement: save the consent under a fresh identifier, or recognise an
        exact retry, of a consent that is still pending or of one that has been carried out. */
    method Consent(source: nat, target: Target, facts: Facts, id: nat) returns (c: Consented, mine: nat)
      requires Valid()
      modifies this
      ensures Valid() && Transaction(old(Value()), Value())
      ensures !facts.allowed || |old(rows)| <= source ==> c.NotNow?
      ensures facts.allowed && source + 1 < |old(rows)| ==>
                var last, saved := |old(rows)| - 1, old(rows)[source].intent;
                c == if saved.Some? && saved == Some(Intent(saved.value.id, target, Replaced(last))) then StartInstead(last) else NotNow
      ensures facts.allowed && source + 1 == |old(rows)| && IsPending(old(rows)[source]) ==>
                var saved := old(rows)[source].intent.value;
                mine == saved.id && c == if saved.target == target then Agreed(false) else NotNow
      ensures facts.allowed && source + 1 == |old(rows)| && !IsPending(old(rows)[source]) ==>
                var row := old(rows)[source];
                && (c == StartInstead(source) <==> facts.planOk && row.target == target)
                && (c == Agreed(true) <==> facts.planOk && row.target != target && row.terminal.None? && !row.seen.SeenComplete?)
                && (c == StartInstead(source) || c == Agreed(true) || c.NotNow?)
      ensures rows == if c == Agreed(true)
                      then old(rows)[source := old(rows)[source].(intent := Some(Intent(id, target, Pending)))]
                      else old(rows)
      ensures c.Agreed? ==> source + 1 == |rows| && rows[source].intent == Some(Intent(mine, target, Pending))
      ensures c == Agreed(true) ==> mine == id
      ensures Extends(old(rows), rows)
      ensures source < |rows| ==> Follows(old(remotes)[source], remotes[source])
    {
      hide World, Transaction, Sound, Truth;
      ghost var begun: State;
      var working;
      begun, working := Begin();
      if source < |rows| { WorldFollows(begun, Value(), source); }
      RollbackIsATransaction(begun, Value());
      if !facts.allowed || source >= |rows| { return NotNow, id; }
      var saved := rows[source];
      if source != |rows| - 1 {
        if saved.intent.Some? && saved.intent.value.state.Replaced? && saved.intent.value.target == target
           && saved.intent.value.state.successor == |rows| - 1 {
          return StartInstead(|rows| - 1), id;
        }
        return NotNow, id;
      }
      if IsPending(saved) {
        return if saved.intent.value.target != target then NotNow else Agreed(false), saved.intent.value.id;
      }
      if !facts.planOk { return NotNow, id; }
      if saved.target == target { return StartInstead(source), id; }
      if saved.terminal.Some? || saved.seen.SeenComplete? { return NotNow, id; }
      SavedIsWorking(Value());
      assert IntentOk(Value(), source);
      var agreed := saved.(intent := Some(Intent(id, target, Pending)));
      SameObservation(saved, agreed, remotes[source]);
      Save(begun, source, agreed);
      return Agreed(true), id;
    }

    /** Second transaction of a replacement: prove the old session expired, then hand over to the
        successor in the same commit. The consent acted on is the one found pending here: it leads to a successor
        exactly if the expiry was `confirmed`, its terms are the requested ones, and billing and plan still permit
        it; once the attempt is known to have expired it is withdrawn otherwise. An expiry is confirmed only if it is
        true, and if the provider answers exactly if it reports the session as unpaid and without recovery. */
    method Handoff(source: nat, target: Target, facts: Facts, line: Line) returns (h: Handed, ghost confirmed: bool)
      requires Valid()
      modifies this
      ensures Valid() && Transaction(old(Value()), Value())
      ensures Handled(old(rows), rows, h, source, target)
      ensures h.Reenter? <==> |old(rows)| != source + 1
      ensures |old(rows)| == source + 1 && !IsPending(old(rows)[source]) ==> h == Declined(false)
      ensures |old(rows)| == source + 1 && IsPending(old(rows)[source]) ==>
                && (h.Successor? <==>
                      confirmed && old(rows)[source].intent.value.target == target && facts.allowed && facts.planOk)
                && (confirmed || KnownExpired(old(rows)[source]) ==> h.Successor? || h == Declined(true))
      ensures confirmed ==> SavedExpired(rows, remotes, source)
      ensures |old(rows)| == source + 1 && IsPending(old(rows)[source]) && line.Up? && Known(old(rows)[source], now)
              && (Ended(old(rows)[source], old(remotes)[source]) || (line.expires && Unsold(remotes[source]))) ==>
                if line.unpaid && !line.recovery then confirmed else !confirmed && h == Declined(true)
      ensures line.Down? && source < |old(rows)| && old(rows)[source].terminal.None? ==> !confirmed
      ensures source < |old(rows)| ==> Follows(old(remotes)[source], remotes[source]) && old(now) <= now
      ensures h.Successor? ==> facts.allowed && facts.planOk && rows[h.attempt].createdAt == now
    {
      hide World, Transaction, Sound, Truth;
      ghost var begun: State;
      var working;
      confirmed := false;
      begun, working := Begin();
      RollbackIsATransaction(begun, Value());
      if source < |rows| { WorldFollows(begun, Value(), source); }
      if |rows| != source + 1 { return Reenter, false; }
      if !IsPending(working.value) { return Declined(false), false; }
      var v, row := Expire(begun, working.value, line);
      if v.Stop? { Withdraw(begun, row); return Declined(true), false; }
      if v.Fail? || !v.view.status.Expired? { h := Give(begun, row); return; }
      h, confirmed := HandOver(begun, source, row, target, facts, line);
    }

    /** Ask for the expiration of the newest attempt's session; it is granted or denied, or the request is lost. */
    method AskToExpire(ghost begun: State, line: Line)
      requires Running(begun) && rows != []
      modifies `remotes, `now
      ensures Running(begun) && World(old(Value()), Value())
      ensures line.Up? && line.expires && old(remotes[|rows| - 1].sessions) != [] && Unsold(remotes[|rows| - 1]) ==>
                remotes[|rows| - 1].sessions[0].status.Expired?
    {
      var i := |rows| - 1;
      Pass(begun);
      ghost var asked := Value();
      WorldFollows(old(Value()), asked, i);
      if line.Up? && line.expires && IsOpen(remotes[i]) {
        ExpirationIsGranted(asked, i);
        remotes := remotes[i := remotes[i].(sessions := remotes[i].sessions[0 := Session(Expired, NoSubscription)])];
      } else {
        NoTimePasses(asked);
      }
      WorldIsTransitive(begun, asked, Value());
      ghost var answered := Value();
      WorldIsTransitive(old(Value()), asked, answered);
      Pass(begun);
      WorldFollows(answered, Value(), i);
      WorldIsTransitive(old(Value()), answered, Value());
    }

    /** Look at the newest attempt and ask for the expiration of an open session. Whatever the answer, look again
        instead of believing it. A granted expiration of a session with which nothing was bought is confirmed. */
    method Expire(ghost begun: State, row: Row, line: Line) returns (v: Verified, seen: Row)
      requires Running(begun) && rows != [] && Working(rows, remotes, Some(row), true)
      modifies `remotes, `now
      ensures Running(begun) && Working(rows, remotes, Some(seen), false)
      ensures !v.Fail? ==> Working(rows, remotes, Some(seen), true)
      ensures v.Canonical? ==> remotes[|rows| - 1].sessions != [] && (v.view.status.Expired? ==> KnownExpired(seen))
      ensures KnownExpired(row) ==> KnownExpired(seen) && (v.Canonical? ==> v.view.status.Expired?)
      ensures line.Up? && Known(row, now) && Unsold(remotes[|rows| - 1]) ==>
                if line.unpaid && !line.recovery
                then v.Canonical? && (line.expires ==> v.view.status.Expired?)
                     && (IsOpen(remotes[|rows| - 1]) ==> v.view.status.Open?)
                else v.Stop?
      ensures line.Up? && Known(row, now) && Ended(row, old(remotes[|rows| - 1])) ==>
                Unsold(remotes[|rows| - 1]) && (v.Canonical? ==> v.view.status.Expired?)
      ensures line.Down? && row.terminal.None? ==> v.Fail?
      ensures Follows(old(remotes[|rows| - 1]), remotes[|rows| - 1]) && old(now) <= now
    {
      hide World, Inv, Sound, Truth;
      v, seen := GetCanonical(begun, row, line);
      if v.Canonical? && v.view.status.Open? {
        ghost var asked := Value();
        AskToExpire(begun, line);
        WorkingLasts(asked, Value(), seen);
        WorldFollows(asked, Value(), |rows| - 1);
        v, seen := GetCanonical(begun, seen, line);
      }
    }

    /** The old session has expired: save its successor, or withdraw the consent. */
    method HandOver(ghost begun: State, source: nat, row: Row, target: Target, facts: Facts, line: Line)
      returns (h: Handed, ghost confirmed: bool)
      requires Running(begun) && |rows| == source + 1 && Working(rows, remotes, Some(row), true)
      requires KnownExpired(row) && IsPending(row)
      modifies this
      ensures Valid() && Transaction(begun, Value())
      ensures Handled(old(rows), rows, h, source, target)
      ensures h.Successor? <==> confirmed && row.intent.value.target == target && facts.allowed && facts.planOk
      ensures h.Successor? || h == Declined(true)
      ensures h.Successor? ==> rows[h.attempt].createdAt == now
      ensures (line.Up? ==> confirmed) && SavedExpired(rows, remotes, source)
      ensures Follows(old(remotes)[source], remotes[source]) && old(now) <= now
    {
      hide World, Transaction, Inv, Sound, Truth, Decision;
      var r, seen, looked := StartWith(begun, Some(row), facts, line, target, None, Some(source));
      confirmed := looked;
      match r {
        case Saved(n) => h := Successor(n);
        case Url(i) => assert false;
        case Refused(committed) => h := Give(begun, seen.value);
      }
      ExpiryIsSaved(Value(), source);
    }

    /** Without a successor, an expired attempt loses its consent, so that the account can choose again. */
    method Give(ghost begun: State, row: Row) returns (h: Handed)
      requires Running(begun) && rows != [] && Working(rows, remotes, Some(row), false) && IsPending(row)
      modifies `rows
      ensures Valid() && Transaction(begun, Value())
      ensures h == Declined(row.seen.SeenExpired?)
      ensures if h.withdrawn then ConsentWithdrawn(old(rows), rows, |rows| - 1) && rows[|rows| - 1].seen.SeenExpired? else rows == old(rows)
    {
      RollbackIsATransaction(begun, Value());
      if !row.seen.SeenExpired? { return Declined(false); }
      Withdraw(begun, row);
      h := Declined(true);
    }

    /** Cleanup after a failed replacement, in a transaction of its own. */
    method Unblock(source: nat, id: nat)
      requires Valid()
      modifies this
      ensures Valid() && Transaction(old(Value()), Value())
      ensures rows == Unblocked(old(rows), source, id) && AllFollow(old(remotes), remotes, |old(rows)|)
    {
      hide World, Transaction, Sound, Truth;
      ghost var begun: State;
      var working;
      begun, working := Begin();
      RollbackIsATransaction(begun, Value());
      TransactionFollows(begun, Value());
      if |rows| == source + 1 && rows[source].seen.SeenExpired? && IsPending(rows[source])
         && rows[source].intent.value.id == id {
        Withdraw(begun, rows[source]);
      }
    }

    /** A replacement that is overtaken withdraws somebody else's consent. This request consents to `x`, another
        window resumes and gives that up and consents to `y`; when this request gets its lock back, it takes
        the consent to `y` for its own, finds its terms different, and withdraws it. */
    method OvertakenReplacement(x: Target, y: Target) returns (mine: nat, other: nat, h: Handed)
      requires Valid() && rows != []
      requires var last := rows[|rows| - 1]; KnownExpired(last) && !IsPending(last) && last.target != x && last.target != y
      requires x != y
      modifies this
      ensures Valid() && Reaches(old(Value()), Value()) && mine != other && h == Declined(true)
      ensures |rows| == |old(rows)| && rows[|rows| - 1].intent == Some(Intent(other, y, Blocked))
    {
      hide World, Transaction, Inv, Reaches;
      ghost var start := Value();
      var i, facts, c := |rows| - 1, Facts(true, true), NotNow;
      c, mine := Consent(i, x, facts, 1);
      TransactionReaches(start, Value());
      ghost var before := Value();
      Unblock(i, mine);
      TransactionReaches(before, Value());
      ReachesIsTransitive(start, before, Value());
      before := Value();
      c, other := Consent(i, y, facts, 2);
      TransactionReaches(before, Value());
      ReachesIsTransitive(start, before, Value());
      before := Value();
      ghost var confirmed;
      var line: Line := *;
      h, confirmed := Handoff(i, x, facts, line);
      TransactionReaches(before, Value());
      ReachesIsTransitive(start, before, Value());
    }

    /** A provider event about attempt `i` only ever triggers a fresh look at the provider. */
    method HandleEvent(i: nat, aboutSession: bool, closing: bool, line: Line) returns (saved: bool)
      requires Valid()
      modifies this
      ensures Valid() && Transaction(old(Value()), Value())
      ensures Observed(old(rows), rows) && rows == if saved && i < |old(rows)| then old(rows)[i := rows[i]] else old(rows)
      ensures closing || |old(rows)| <= i || line.Down? ==> !saved
      ensures !closing && i < |old(rows)| && line.Up? && Bought(old(remotes)[i]) ==>
                && saved && Reported(rows[i].terminal, old(remotes)[i], remotes[i])
                && rows[i].seen == if aboutSession then SeenComplete else old(rows)[i].seen
      ensures !closing && i < |old(rows)| && line.Up? && aboutSession ==>
                && (Ended(old(rows)[i], old(remotes)[i]) ==> saved && rows[i].seen.SeenExpired?)
                && (old(remotes)[i].sessions != [] && IsOpen(remotes[i]) ==> saved && rows[i].seen.SeenOpen?)
    {
      hide World, Transaction, Sound, Truth;
      saved := false;
      ghost var begun: State;
      var working;
      begun, working := Begin();
      RollbackIsATransaction(begun, Value());
      if i < |rows| { WorldFollows(begun, Value(), i); }
      if closing || i >= |rows| { return; }
      SavedIsSound(Value(), i);
      var o := Observation(false, rows[i], None);
      if aboutSession {
        o := LookAtSession(begun, i, rows[i], line);
      } else {
        o := ObserveSubscription(begun, i, rows[i], line);
        if o.ok { StillComplete(rows[i], o.row, remotes[i]); }
      }
      RollbackIsATransaction(begun, Value());
      if !o.ok { return; }
      Save(begun, i, o.row);
      saved := true;
    }

    method LookAtSession(ghost begun: State, i: nat, row: Row, line: Line) returns (o: Observation)
      requires Running(begun) && i < |rows| && row.createdAt == rows[i].createdAt && Truth(row, remotes[i])
      modifies `remotes, `now
      ensures Running(begun) && Truth(o.row, remotes[i]) && SameTerms(o.row, row)
      ensures o.ok ==> Sound(o.row, remotes[i])
      ensures Follows(old(remotes[i]), remotes[i])
      ensures line.Up? && Bought(old(remotes[i])) ==>
                o.ok && o.row.seen.SeenComplete? && Reported(o.row.terminal, old(remotes[i]), remotes[i])
      ensures line.Up? && old(remotes[i].sessions) != [] && Unsold(remotes[i]) ==>
                o.ok && !o.row.seen.SeenComplete? && (IsOpen(remotes[i]) ==> o.row.seen.SeenOpen?)
      ensures line.Up? && Ended(row, old(remotes[i])) ==> Unsold(remotes[i]) && o.row.seen.SeenExpired?
      ensures line.Down? ==> !o.ok
    {
      ghost var before := Value();
      var view := GetSession(begun, i, line);
      WorldFollows(before, Value(), i);
      TruthLasts(row, before.remotes[i], remotes[i], before.now, now);
      assert AttemptOk(Value(), i);
      if view.None? { return Observation(false, row, None); }
      ghost var read := Value();
      o := ObserveCheckout(begun, i, row, view.value, line);
      WorldFollows(read, Value(), i);
      assert AttemptOk(Value(), i);
    }

    /** The owner's refresh: look at the newest attempt and save what was seen. */
    method Refresh(line: Line) returns (saved: bool)
      requires Valid()
      modifies this
      ensures Valid() && Transaction(old(Value()), Value())
      ensures Observed(old(rows), rows)
      ensures rows == if saved && rows != [] then old(rows)[|rows| - 1 := rows[|rows| - 1]] else old(rows)
      ensures old(rows) != [] && line.Up? && !old(rows)[|rows| - 1].seen.Creating? ==>
                var row, before, last := old(rows)[|rows| - 1], old(remotes)[|rows| - 1], rows[|rows| - 1];
                && (Ended(row, before) ==> saved && last == row.(seen := SeenExpired))
                && (row.terminal.None? && IsOpen(remotes[|rows| - 1]) ==> saved && last == row.(seen := SeenOpen))
                && (Bought(before) ==> saved && last.seen.SeenComplete? && Reported(last.terminal, before, remotes[|rows| - 1]))
    {
      hide World, Transaction, Sound, Truth;
      ghost var begun: State;
      var working;
      begun, working := Begin();
      RollbackIsATransaction(begun, Value());
      if rows == [] { return false; }
      WorkingStaysTrue(rows, remotes, working.value);
      WorldFollows(begun, Value(), |rows| - 1);
      var o := Sync(begun, |rows| - 1, working.value, line);
      RollbackIsATransaction(begun, Value());
      if !o.ok { return false; }
      Save(begun, |rows| - 1, o.row);
      saved := true;
    }

    // ---- Whole requests: transactions with anything at all between them ----

    /** The lock is free: any number of other transactions and events, or none while all is `quiet`. */
    method Others(quiet: bool)
      requires Valid()
      modifies this
      ensures Valid() && Reaches(old(Value()), Value()) && Extends(old(rows), rows)
      ensures AllFollow(old(remotes), remotes, |old(rows)|)
      ensures quiet ==> Value() == old(Value())
    {
      hide World, Commit, Inv, Follows;
      ghost var start := Value();
      var steps: int := *;
      SameStateReaches(start);
      AllFollowThemselves(remotes);
      for n := 0 to if steps < 0 || quiet then 0 else steps
        invariant Valid() && Reaches(start, Value()) && Extends(start.rows, rows)
        invariant AllFollow(start.remotes, remotes, |start.rows|)
        invariant quiet ==> Value() == start
      {
        var next: State := *;
        if World(State(rows, remotes, now), next) || Commit(State(rows, remotes, now), next) {
          StepExtends(Value(), next);
          StepReaches(start, Value(), next);
          StepFollows(start.remotes, Value(), next, |start.rows|);
          rows, remotes, now := next.rows, next.remotes, next.now;
        }
      }
    }

    /** Start or continue a checkout. A URL is always that of the newest attempt, with exactly the
        requested terms; naming an expected attempt never creates another one. `late` names an attempt whose
        first request was sent more than 23 hours after it was saved. The page of the expected attempt is shown as
        long as it is open, and an account without attempts, or whose newest one has expired, gets a new one. */
    method Start(target: Target, expected: Option<nat>, facts: Facts, line: Line, quiet: bool)
      returns (r: Started, late: Option<nat>)
      requires Valid()
      modifies this
      ensures late.None? ==> Valid() && Reaches(old(Value()), Value())
      ensures Extends(old(rows), rows) && (late.None? ==> r.Refused? || UrlOf(rows, r, target))
      ensures expected.Some? ==> late.None? && |rows| == |old(rows)| && (r.Url? ==> r.attempt == expected.value)
      ensures late.Some? ==> SentLate(late.value)
      ensures expected.Some? && ShowsPage(old(rows), expected.value, target, remotes, facts, line) ==> r == Url(expected.value)
      ensures expected.None? && facts == Facts(true, true) && Vacant(old(rows), old(remotes), line) ==>
                && |old(rows)| < |rows| && rows[|old(rows)|].target == target
                && (quiet && line.Up? && line.redirectable && late.None? ==> r == Url(|old(rows)|))
    {
      hide World, Transaction, Inv, Reaches, LateSend, Follows;
      ghost var begun := Value();
      late := None;
      r := StartFirst(facts, line, target, expected);
      TransactionReaches(begun, Value());
      if r.Saved? { r, late := Finish(begun, r.attempt, target, line, quiet); }
    }

    /** After the attempt is saved the lock is free for a while; then its request is sent. */
    method Finish(ghost begun: State, k: nat, target: Target, line: Line, quiet: bool) returns (r: Started, late: Option<nat>)
      requires Valid() && Reaches(begun, Value()) && Extends(begun.rows, rows)
      requires k < |rows| && rows[k].target == target
      modifies this
      ensures late.None? ==> Valid() && Reaches(begun, Value())
      ensures Extends(begun.rows, rows) && Extends(old(rows), rows) && |remotes| == |rows|
      ensures late.None? ==> r.Refused? || (r.Url? && r.attempt == k && UrlOf(rows, r, target))
      ensures late.Some? ==> SentLate(late.value)
      ensures AllFollow(old(remotes), remotes, k)
      ensures quiet && late.None? && k + 1 == |old(rows)| && IsNew(old(rows)[k]) && line.Up? ==>
                r == if line.redirectable then Url(k) else Refused(true)
    {
      hide World, Transaction, Inv, Reaches, LateSend, Follows;
      ghost var saved := Value();
      Others(quiet);
      ReachesIsTransitive(begun, saved, Value());
      ghost var before := Value();
      var closes: bool := *;
      var closing := closes && !quiet;
      var granted, sent;
      r, granted, sent := Deliver(k, closing, line);
      AllFollowFurther(saved.remotes, before.remotes, remotes, |saved.rows|, k);
      ObservedExtends(begun.rows, saved.rows, before.rows, rows);
      late := None;
      if sent { return r, Some(k); }
      TransactionReaches(before, Value());
      ReachesIsTransitive(begun, before, Value());
    }

    /** Replace the newest, unfinished attempt by one with other terms. Re-entering after a concurrent
        handoff terminates: a source that is no longer the newest attempt never becomes it again. `facts` are the
        answers at first, `later` those at the handoff. A pending consent is carried out when its request comes
        again, and a new one when nothing comes between, if the session has expired or expires on request, unless
        something was bought with it; asking once more shows the successor's page. */
    method Replace(source: nat, target: Target, facts: Facts, later: Facts, line: Line, quiet: bool)
      returns (r: Started, late: Option<nat>)
      requires Valid()
      modifies this
      ensures late.None? ==> Valid() && Reaches(old(Value()), Value())
      ensures Extends(old(rows), rows) && (late.None? ==> r.Refused? || ReplacedBy(rows, r, source, target))
      ensures source + 1 < |old(rows)| ==> late.None? && |rows| == |old(rows)|
      ensures late.Some? ==> SentLate(late.value)
      ensures source + 1 == |old(rows)| && Agreeable(old(rows)[source], target, facts, quiet) && later == Facts(true, true)
              && line.Up? && line.unpaid && !line.recovery
              && (Ended(old(rows)[source], old(remotes)[source]) || (line.expires && Unsold(remotes[source]))) ==>
                && CarriedOut(rows[source], target, source + 1)
                && source + 1 < |rows| && rows[source + 1].target == target
                && (quiet && late.None? && line.redirectable ==> r == Url(source + 1))
      ensures source + 1 < |old(rows)| ==>
                var last := |old(rows)| - 1;
                CarriedOut(old(rows)[source], target, last) && facts.allowed && ShowsPage(old(rows), last, target, remotes, later, line)
                ==> r == Url(last)
      decreases if source + 1 < |rows| then 0 else 1, 1
    {
      hide World, Transaction, Inv, Reaches, LateSend;
      ghost var begun := Value();
      late := None;
      var newId: nat := *;
      var c, mine := Consent(source, target, facts, newId);
      TransactionReaches(begun, Value());
      match c {
        case NotNow => return Refused(false), None;
        case StartInstead(a) =>
          ghost var before := Value();
          r, late := Start(target, Some(a), later, line, quiet);
          ReachesIsTransitive(begun, before, Value());
          return;
        case Agreed(_) =>
      }
      if Ended(begun.rows[source], begun.remotes[source]) {
        StaysEnded(begun.rows[source], rows[source], begun.remotes[source], remotes[source]);
      }
      hide Follows, Ended, Unsold;
      r, late := Proceed(begun, source, target, mine, c.isNew, later, line, quiet);
    }

    /** The consent is saved: hand over, or start again if the attempt has been superseded meanwhile. */
    method Proceed(ghost begun: State, source: nat, target: Target, mine: nat, isNew: bool, later: Facts, line: Line, quiet: bool)
      returns (r: Started, late: Option<nat>)
      requires Valid() && Reaches(begun, Value()) && Extends(begun.rows, rows) && source + 1 == |rows|
      requires rows[source].intent == Some(Intent(mine, target, Pending))
      modifies this
      ensures late.None? ==> Valid() && Reaches(begun, Value())
      ensures Extends(begun.rows, rows) && (late.None? ==> r.Refused? || ReplacedBy(rows, r, source, target))
      ensures source < |rows| == |remotes| && (late.Some? ==> SentLate(late.value))
      ensures (!isNew || quiet) && later == Facts(true, true) && !old(rows)[source].seen.Creating? && old(rows)[source].terminal.None?
              && line.Up? && line.unpaid && !line.recovery
              && (Ended(old(rows)[source], old(remotes)[source]) || (line.expires && Unsold(remotes[source]))) ==>
                && CarriedOut(rows[source], target, source + 1)
                && source + 1 < |rows| && rows[source + 1].target == target
                && (quiet && late.None? && line.redirectable ==> r == Url(source + 1))
      decreases 1, 0
    {
      hide World, Transaction, Inv, Reaches, LateSend, Follows, Ended, Unsold;
      ghost var agreed := Value();
      if !rows[source].seen.Creating? { KnownHasSession(agreed, source); }
      var h, found;
      ghost var relocked;
      h, found, relocked := CarryOut(begun, source, target, mine, isNew, later, line, quiet);
      ghost var handed := Value();
      if h.Reenter? {
        var again: Facts, afterwards: Facts, next: Line := *, *, *;
        r, late := Replace(source, target, again, afterwards, next, false);
        ReachesIsTransitive(begun, handed, Value());
        ExtendsFurther(begun.rows, handed.rows, rows);
        return;
      }
      r, late := Conclude(begun, source, target, h, found, line, quiet);
      if agreed.remotes[source].sessions != [] && Unsold(remotes[source]) {
        WasUnsold(agreed.remotes[source], handed.remotes[source], remotes[source]);
      }
    }

    /** After the handoff: the successor's request is sent; a failure is followed by the cleanup. */
    method Conclude(ghost begun: State, source: nat, target: Target, h: Handed, found: Option<nat>, line: Line, quiet: bool)
      returns (r: Started, late: Option<nat>)
      requires Valid() && Reaches(begun, Value()) && Extends(begun.rows, rows) && source < |rows| && !h.Reenter?
      requires h.Successor? ==>
                 && h.attempt == source + 1 == |rows| - 1 && rows[h.attempt].target == target && IsNew(rows[h.attempt])
                 && CarriedOut(rows[source], target, h.attempt)
      modifies this
      ensures late.None? ==> Valid() && Reaches(begun, Value())
      ensures Extends(begun.rows, rows) && Extends(old(rows), rows) && AllFollow(old(remotes), remotes, source + 1)
      ensures late.None? ==> r.Refused? || (h.Successor? && r.attempt == h.attempt && UrlOf(rows, r, target))
      ensures late.Some? ==> SentLate(late.value)
      ensures h.Successor? && quiet && late.None? && line.Up? && line.redirectable ==> r == Url(h.attempt)
    {
      hide World, Transaction, Inv, Reaches, LateSend, Follows;
      ghost var handed := Value();
      AllFollowThemselves(remotes);
      late := None;
      r := if h.Declined? then Refused(h.withdrawn) else Refused(true);
      if h.Successor? {
        r, late := Finish(begun, h.attempt, target, line, quiet);
        // A request sent too late leaves what this model covers.
        if late.Some? { return; }
      }
      if r.Refused? && found.Some? {
        ghost var answered := Value();
        ghost var freed := CleanUp(begun, source, found.value);
        AllFollowFurther(handed.remotes, answered.remotes, remotes, source + 1, source + 1);
        ExtendsFurther(handed.rows, answered.rows, rows);
      }
    }

    /** The handoff. A new consent, `mine`, was committed first, so the lock has been free; an exact retry kept
        it. Either way the consent acted on is the one `found` pending afterwards. A consent withdrawn here is the
        request's own exactly if what was found is what was saved. */
    method CarryOut(ghost begun: State, source: nat, target: Target, mine: nat, isNew: bool, later: Facts, line: Line,
                    quiet: bool)
      returns (h: Handed, found: Option<nat>, ghost relocked: State)
      requires Valid() && Reaches(begun, Value()) && Extends(begun.rows, rows) && source < |rows|
      requires rows[source].intent == Some(Intent(mine, target, Pending))
      modifies this
      ensures Valid() && Reaches(begun, Value()) && Extends(begun.rows, rows) && source < |rows|
      ensures h.Reenter? ==> source + 1 < |rows|
      ensures h.Successor? ==>
                && h.attempt + 1 == |rows| && rows[h.attempt].target == target
                && h.attempt == source + 1 && CarriedOut(rows[source], target, h.attempt)
      ensures Reaches(begun, relocked) && Transaction(relocked, Value()) && (!isNew || quiet ==> relocked == old(Value()))
      ensures source < |relocked.rows| && Handled(relocked.rows, rows, h, source, target)
      ensures found == if IsPending(relocked.rows[source]) then Some(relocked.rows[source].intent.value.id) else None
      ensures h == Declined(true) ==>
                && found.Some? && rows[source].intent.value.id == found.value && rows[source].intent.value.state.Blocked?
                && (rows[source].intent.value.id == mine <==> found == Some(mine))
      ensures !isNew ==> found == Some(mine)
      ensures (|relocked.rows| == source + 1 && found.Some? && KnownExpired(relocked.rows[source])
               && relocked.rows[source].intent.value.target != target) ==> h == Declined(true)
      ensures (!isNew || quiet) && source + 1 == |old(rows)| && later == Facts(true, true) && !old(rows)[source].seen.Creating?
              && old(rows)[source].terminal.None? && line.Up? && line.unpaid && !line.recovery
              && (Ended(old(rows)[source], old(remotes)[source]) || (line.expires && Unsold(remotes[source]))) ==>
                h.Successor?
      ensures h.Successor? ==> IsNew(rows[h.attempt])
      ensures Follows(old(remotes)[source], remotes[source])
    {
      hide World, Transaction, Inv, Reaches;
      ghost var agreed := Value();
      AllFollowThemselves(remotes);
      if isNew {
        Others(quiet);
        ReachesIsTransitive(begun, agreed, Value());
        ExtendsFurther(begun.rows, agreed.rows, rows);
      }
      relocked := Value();
      found := if IsPending(rows[source]) then Some(rows[source].intent.value.id) else None;
      ghost var confirmed;
      h, confirmed := Handoff(source, target, later, line);
      TransactionReaches(relocked, Value());
      ReachesIsTransitive(begun, relocked, Value());
      HandledExtends(relocked.rows, rows, h, source, target);
      ExtendsFurther(begun.rows, relocked.rows, rows);
    }

    /** The request failed: once the lock is `freed` again, one transaction withdraws the consent it had found. */
    method CleanUp(ghost begun: State, source: nat, id: nat) returns (ghost freed: State)
      requires Valid() && Reaches(begun, Value()) && Extends(begun.rows, rows)
      modifies this
      ensures Valid() && Reaches(begun, Value()) && Extends(begun.rows, rows)
      ensures Reaches(begun, freed) && Transaction(freed, Value()) && rows == Unblocked(freed.rows, source, id)
      ensures Extends(old(rows), rows) && AllFollow(old(remotes), remotes, |old(rows)|)
    {
      hide World, Transaction, Inv, Reaches;
      ghost var failed := Value();
      Others(false);
      ReachesIsTransitive(begun, failed, Value());
      ExtendsFurther(begun.rows, failed.rows, rows);
      freed := Value();
      Unblock(source, id);
      AllFollowFurther(failed.remotes, freed.remotes, remotes, |failed.rows|, |failed.rows|);
      ExtendsFurther(failed.rows, freed.rows, rows);
      TransactionReaches(freed, Value());
      ReachesIsTransitive(begun, freed, Value());
    }

    /** Continue whatever is unfinished: the pending replacement, or the pending attempt itself. */
    method Resume(expected: Option<nat>, expectedIntent: Option<nat>, facts: Facts, later: Facts, line: Line, quiet: bool)
      returns (r: Started, late: Option<nat>)
      requires Valid()
      modifies this
      ensures late.None? ==> Valid() && Reaches(old(Value()), Value())
      ensures Extends(old(rows), rows) && |remotes| == |rows|
      ensures old(rows) == [] ==> r == Refused(false) && rows == old(rows)
      ensures old(rows) != [] ==>
                var i, row := |old(rows)| - 1, old(rows)[|old(rows)| - 1];
                if IsPending(row) then late.Some? || r.Refused? || ReplacedBy(rows, r, i, row.intent.value.target)
                else late.None? && |rows| == |old(rows)| && (r.Refused? || (UrlOf(rows, r, row.target) && r.attempt == i))
      ensures late.Some? ==> SentLate(late.value)
      ensures old(rows) != [] && (expected.None? || expected == Some(|old(rows)| - 1)) ==>
                var i, row := |old(rows)| - 1, old(rows)[|old(rows)| - 1];
                if IsPending(row) then
                  (expected.None? || expectedIntent == Some(row.intent.value.id)) && Agreeable(row, row.intent.value.target, facts, quiet)
                  && later == Facts(true, true) && line.Up? && line.unpaid && !line.recovery
                  && (Ended(row, old(remotes)[i]) || (line.expires && Unsold(remotes[i]))) ==>
                    && CarriedOut(rows[i], row.intent.value.target, i + 1)
                    && i + 1 < |rows| && rows[i + 1].target == row.intent.value.target
                    && (quiet && late.None? && line.redirectable ==> r == Url(i + 1))
                else
                  expectedIntent.None? && row.seen.SeenOpen? && ShowsPage(old(rows), i, row.target, remotes, facts, line) ==> r == Url(i)
    {
      hide World, Transaction, Inv, Reaches;
      SameStateReaches(Value());
      late := None;
      if rows == [] || (expected.Some? && expected.value != |rows| - 1) { return Refused(false), None; }
      var i, row := |rows| - 1, rows[|rows| - 1];
      if IsPending(row) {
        if expected.Some? && expectedIntent != Some(row.intent.value.id) { return Refused(false), None; }
        r, late := Replace(i, row.intent.value.target, facts, later, line, quiet);
        return;
      }
      if expectedIntent.Some? || !(row.seen.Creating? || row.seen.SeenOpen?) { return Refused(false), None; }
      r, late := Start(row.target, Some(i), facts, line, quiet);
    }
  }
}
