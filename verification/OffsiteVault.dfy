/** The off-site repository: two streams of snapshots, written, pruned and read under one host lock.

    A snapshot of either stream carries the closure manifest known when it was written. Uploads can
    fail half way, the live database can be rolled back (so a staged manifest can be any manifest),
    and `forget` can drop any snapshot except the newest closure checkpoint. */
module OffsiteVault {
  import opened Prelude
  import opened ClosureMarkers

  /** A snapshot is identified by its upload time. */
  datatype Snapshot = Snapshot(time: int, markers: seq<Marker>)

  /** The same with the manifest as a map. */
  datatype Checkpoint = Checkpoint(time: int, known: Markers)

  datatype Kind = Closures | Database

  datatype Refusal = InvalidManifest | UploadFailed | NothingSelected | NoCheckpoint | NotADatabaseSnapshot

  datatype Recovery = Recovery(database: int, checkpoint: int, manifest: seq<Marker>)

  datatype Repository = Repository(closures: seq<Checkpoint>, databases: seq<Checkpoint>, clock: int)

  /** One operator command, with the choices it leaves to the world: what was staged, when uploads
      finished (`None` if they did not), which snapshots `forget` kept. */
  datatype Event =
    | BackUp(kind: Kind, staged: seq<Marker>, closureAt: int, databaseAt: Option<int>)
    | Retain(databasesKept: set<int>, now: int, rewriteAt: Option<int>, closuresKept: Option<set<int>>)

  ghost function Newest(closures: seq<Checkpoint>): Markers {
    if closures == [] then map[] else closures[|closures| - 1].known
  }

  ghost function Times(s: seq<Checkpoint>): seq<int> { seq(|s|, i requires 0 <= i < |s| => s[i].time) }

  ghost function Surviving(s: seq<Checkpoint>, kept: set<int>): seq<Checkpoint>
    decreases |s|
  {
    if s == [] then []
    else Surviving(s[..|s| - 1], kept) + (if s[|s| - 1].time in kept then [s[|s| - 1]] else [])
  }

  lemma {:induction false} SurvivorsAreKept(s: seq<Checkpoint>, kept: set<int>)
    ensures forall c :: c in Surviving(s, kept) <==> c in s && c.time in kept
    ensures s != [] && s[|s| - 1].time in kept ==>
              var r := Surviving(s, kept); r != [] && r[|r| - 1] == s[|s| - 1]
    decreases |s|
  {
    if s != [] {
      SurvivorsAreKept(s[..|s| - 1], kept);
      assert s == s[..|s| - 1] + [s[|s| - 1]];
    }
  }

  ghost function StillNeeded(m: Markers, databaseTimes: seq<int>, now: int): Markers {
    map u | u in m && Needed(Marker(u, m[u]), databaseTimes, now) :: m[u]
  }

  /** A prune that did not finish is taken to have removed nothing. */
  ghost function Pruned(s: seq<Checkpoint>, kept: Option<set<int>>): seq<Checkpoint> {
    if kept.None? then s else Surviving(s, kept.value)
  }

  ghost function Step(r: Repository, e: Event): Repository {
    match e
    case BackUp(kind, staged, closureAt, databaseAt) =>
      if !OnePerUser(staged) then r
      else
        var known := Join(Newest(r.closures), Contents(staged));
        var closures := r.closures + [Checkpoint(closureAt, known)];
        if kind.Closures? || databaseAt.None? then Repository(closures, r.databases, closureAt)
        else Repository(closures, r.databases + [Checkpoint(databaseAt.value, known)], databaseAt.value)
    case Retain(databasesKept, now, rewriteAt, closuresKept) =>
      var databases := Surviving(r.databases, databasesKept);
      var needed := StillNeeded(Newest(r.closures), Times(databases), now);
      if needed == Newest(r.closures) then Repository(Pruned(r.closures, closuresKept), databases, r.clock)
      else if rewriteAt.None? then Repository(r.closures, databases, r.clock)
      else Repository(Pruned(r.closures + [Checkpoint(rewriteAt.value, needed)], closuresKept), databases, rewriteAt.value)
  }

  /** What the world is trusted with: upload times increase, nobody asks for closure in the future,
      and pruning closure checkpoints keeps the newest one. */
  ghost predicate Trusted(r: Repository, e: Event) {
    match e
    case BackUp(kind, staged, closureAt, databaseAt) =>
      && r.clock < closureAt
      && (databaseAt.Some? ==> closureAt < databaseAt.value)
      && (forall k <- staged :: k.requestedAt.instant <= closureAt)
    case Retain(databasesKept, now, rewriteAt, closuresKept) =>
      && (rewriteAt.Some? ==> r.clock < rewriteAt.value)
      && (closuresKept.Some? && r.closures != [] ==> r.closures[|r.closures| - 1].time in closuresKept.value)
      && (closuresKept.Some? && rewriteAt.Some? ==> rewriteAt.value in closuresKept.value)
  }

  // ---- Safety over whole histories ----

  /** A repository together with the earliest request ever checkpointed for each user. */
  datatype History = History(repository: Repository, ever: Markers)

  ghost function Advance(h: History, e: Event): History {
    var r := Step(h.repository, e);
    History(r, Join(h.ever, Newest(r.closures)))
  }

  ghost function After(h: History, events: seq<Event>): History
    decreases |events|
  {
    if events == [] then h else After(Advance(h, events[0]), events[1..])
  }

  ghost predicate AllTrusted(h: History, events: seq<Event>)
    decreases |events|
  {
    events != [] ==> Trusted(h.repository, events[0]) && AllTrusted(Advance(h, events[0]), events[1..])
  }

  const EMPTY := History(Repository([], [], 0), map[])

  /** The manifest says nothing earlier than history does. */
  ghost predicate Within(m: Markers, ever: Markers) {
    forall u <- m.Keys :: u in ever && ever[u].instant <= m[u].instant
  }

  /** `u` is in the newest checkpoint with its earliest request, or no surviving database predates it. */
  ghost predicate Protected(r: Repository, ever: Markers, u: nat)
    requires u in ever
  {
    || (u in Newest(r.closures) && Newest(r.closures)[u].instant == ever[u].instant)
    || (forall d <- r.databases :: ever[u].instant < d.time)
  }

  ghost predicate Safe(h: History) {
    && (h.repository.closures == [] ==> h.ever == map[] && h.repository.databases == [])
    && Within(Newest(h.repository.closures), h.ever)
    && (forall d <- h.repository.databases :: Within(d.known, h.ever))
    && (forall u <- h.ever.Keys :: h.ever[u].instant <= h.repository.clock && Protected(h.repository, h.ever, u))
  }

  lemma EarlierHistory(m: Markers, ever: Markers, more: Markers)
    requires Within(m, ever)
    ensures Within(m, Join(ever, more))
  {
  }

  lemma ContentsAreStaged(staged: seq<Marker>, u: nat)
    requires u in Contents(staged)
    ensures Marker(u, Contents(staged)[u]) in staged
  {
    NoteAllKeepsEarliest(map[], staged);
  }

  lemma BackUpProtects(h: History, e: Event)
    requires Safe(h) && e.BackUp? && Trusted(h.repository, e)
    ensures Safe(Advance(h, e))
  {
    var r, q := h.repository, Step(h.repository, e);
    var ever := Advance(h, e).ever;
    if OnePerUser(e.staged) {
      var known := Newest(q.closures);
      forall u <- ever.Keys ensures ever[u].instant <= q.clock && Protected(q, ever, u) {
        if u in Contents(e.staged) { ContentsAreStaged(e.staged, u); }
        if u in h.ever {
          assert Protected(r, h.ever, u);
        }
      }
      forall d <- q.databases ensures Within(d.known, ever) {
        if d in r.databases { EarlierHistory(d.known, h.ever, known); }
      }
    } else {
      assert ever == h.ever;
    }
  }

  lemma NothingNeeded(databaseTimes: seq<int>, now: int)
    ensures StillNeeded(map[], databaseTimes, now) == map[]
  {
  }

  lemma PruneKeepsNewest(s: seq<Checkpoint>, kept: Option<set<int>>)
    requires s != [] && kept.Some? ==> s[|s| - 1].time in kept.value
    ensures Newest(Pruned(s, kept)) == Newest(s) && (Pruned(s, kept) == [] <==> s == [])
  {
    if kept.Some? { SurvivorsAreKept(s, kept.value); }
  }

  /** Retention leaves the newest manifest alone or cuts it down to the markers still
      needed; when the rewrite succeeds it always does the latter. */
  lemma RetainOutcome(r: Repository, e: Event)
    requires e.Retain? && Trusted(r, e)
    ensures var q := Step(r, e);
            && q.databases == Surviving(r.databases, e.databasesKept) && r.clock <= q.clock
            && (Newest(q.closures) == Newest(r.closures)
                || Newest(q.closures) == StillNeeded(Newest(r.closures), Times(q.databases), e.now))
            && (e.rewriteAt.Some? ==>
                  Newest(q.closures) == StillNeeded(Newest(r.closures), Times(q.databases), e.now))
            && (q.closures == [] <==> r.closures == [])
  {
    var times := Times(Surviving(r.databases, e.databasesKept));
    var needed := StillNeeded(Newest(r.closures), times, e.now);
    NothingNeeded(times, e.now);
    hide StillNeeded, Surviving, Times, Pruned;
    if needed == Newest(r.closures) {
      PruneKeepsNewest(r.closures, e.closuresKept);
    } else if e.rewriteAt.Some? {
      var s := r.closures + [Checkpoint(e.rewriteAt.value, needed)];
      PruneKeepsNewest(s, e.closuresKept);
    }
  }

  lemma NeededIsLess(m: Markers, databaseTimes: seq<int>, now: int)
    ensures forall u :: u in StillNeeded(m, databaseTimes, now) <==> u in m && Needed(Marker(u, m[u]), databaseTimes, now)
    ensures forall u <- StillNeeded(m, databaseTimes, now).Keys :: StillNeeded(m, databaseTimes, now)[u] == m[u]
  {
  }

  lemma UnneededIsOlder(m: Markers, databases: seq<Checkpoint>, now: int, u: nat, d: Checkpoint)
    requires u in m && !Needed(Marker(u, m[u]), Times(databases), now) && d in databases
    ensures m[u].instant < d.time
  {
    var i :| 0 <= i < |databases| && databases[i] == d;
    assert Times(databases)[i] == d.time && d.time in Times(databases);
  }

  lemma RetainProtects(h: History, e: Event)
    requires Safe(h) && e.Retain? && Trusted(h.repository, e)
    ensures Safe(Advance(h, e))
  {
    var r, q := h.repository, Step(h.repository, e);
    RetainOutcome(r, e);
    SurvivorsAreKept(r.databases, e.databasesKept);
    hide Step, Trusted, Surviving, Times, StillNeeded;
    var before, after := Newest(r.closures), Newest(q.closures);
    NeededIsLess(before, Times(q.databases), e.now);
    assert Join(h.ever, after) == h.ever;
    forall u <- h.ever.Keys ensures Protected(q, h.ever, u) {
      assert Protected(r, h.ever, u);
      if u in before && u !in after {
        forall d <- q.databases ensures h.ever[u].instant < d.time {
          UnneededIsOlder(before, q.databases, e.now, u, d);
        }
      }
    }
  }

  /** No restore can lose a known closure: through any sequence of backups, half-finished uploads,
      rollbacks and retention runs, whoever was ever checkpointed stays protected. */
  lemma {:induction false} NoClosureIsLost(h: History, events: seq<Event>)
    requires Safe(h) && AllTrusted(h, events)
    ensures Safe(After(h, events))
    decreases |events|
  {
    if events != [] {
      if events[0].BackUp? { BackUpProtects(h, events[0]); } else { RetainProtects(h, events[0]); }
      NoClosureIsLost(Advance(h, events[0]), events[1..]);
    }
  }

  /** Recovering a snapshot dated at or before a closure request yields that user's earliest request. */
  lemma FetchNamesEveryClosure(events: seq<Event>, d: Checkpoint, u: nat)
    requires AllTrusted(EMPTY, events)
    requires var h := After(EMPTY, events);
             d in h.repository.databases && u in h.ever && d.time <= h.ever[u].instant
    ensures var h := After(EMPTY, events);
            var manifest := Join(d.known, Newest(h.repository.closures));
            u in manifest && manifest[u].instant == h.ever[u].instant
  {
    NoClosureIsLost(EMPTY, events);
    var h := After(EMPTY, events);
    assert Protected(h.repository, h.ever, u);
  }

  /** A closure still recorded in the live database is checkpointed again by the next backup, even
      after retention dropped its marker. */
  lemma DroppedMarkerReturns(r: Repository, e: Event, k: Marker)
    requires e.BackUp? && OnePerUser(e.staged) && k in e.staged
    ensures var known := Newest(Step(r, e).closures);
            k.user in known && known[k.user].instant <= k.requestedAt.instant
  {
    NoteAllKeepsEarliest(map[], e.staged);
  }

  /** A complete database backup adds exactly one snapshot, with everything known by then; nothing but a retention
      that does not keep it ever removes a database snapshot. */
  lemma DatabasesComeAndGo(r: Repository, e: Event, d: Checkpoint)
    ensures e.BackUp? && e.kind.Database? && e.databaseAt.Some? && OnePerUser(e.staged) ==>
              Step(r, e).databases == r.databases + [Checkpoint(e.databaseAt.value, Join(Newest(r.closures), Contents(e.staged)))]
    ensures d in r.databases ==> (d in Step(r, e).databases <==> !(e.Retain? && d.time !in e.databasesKept))
  {
    if e.Retain? { SurvivorsAreKept(r.databases, e.databasesKept); }
  }

  /** In every history a database snapshot stays until a retention leaves it out. */
  lemma {:induction false} DatabaseStays(h: History, events: seq<Event>, d: Checkpoint)
    requires d in h.repository.databases && forall e <- events :: e.Retain? ==> d.time in e.databasesKept
    ensures d in After(h, events).repository.databases
    decreases |events|
  {
    if events != [] {
      DatabasesComeAndGo(h.repository, events[0], d);
      hide Step;
      DatabaseStays(Advance(h, events[0]), events[1..], d);
    }
  }

  // ---- The commands as the host runs them ----

  ghost function Abstract(s: Snapshot): Checkpoint { Checkpoint(s.time, Contents(s.markers)) }

  ghost function AbstractAll(s: seq<Snapshot>): seq<Checkpoint> { seq(|s|, i requires 0 <= i < |s| => Abstract(s[i])) }

  ghost predicate Ascend(s: seq<Snapshot>) {
    forall i, j :: 0 <= i < j < |s| ==> s[i].time < s[j].time
  }

  ghost predicate WellFormed(s: seq<Snapshot>, clock: int) {
    && Ascend(s)
    && forall x <- s :: x.time <= clock && OnePerUser(x.markers)
  }

  lemma {:induction false} RetainedStaysDistinct(ms: seq<Marker>, databaseTimes: seq<int>, now: int)
    requires OnePerUser(ms)
    ensures OnePerUser(Retained(ms, databaseTimes, now))
    decreases |ms|
  {
    hide Needed;
    if ms != [] {
      var rest, last := ms[..|ms| - 1], ms[|ms| - 1];
      RetainedStaysDistinct(rest, databaseTimes, now);
      var kept := Retained(rest, databaseTimes, now);
      forall i | 0 <= i < |kept| ensures kept[i].user != last.user {
        assert kept[i] in rest;
      }
    }
  }

  lemma {:induction false} AllNeeded(ms: seq<Marker>, databaseTimes: seq<int>, now: int)
    requires forall k <- ms :: Needed(k, databaseTimes, now)
    ensures Retained(ms, databaseTimes, now) == ms
    decreases |ms|
  {
    hide Needed;
    if ms != [] {
      assert ms == ms[..|ms| - 1] + [ms[|ms| - 1]];
      AllNeeded(ms[..|ms| - 1], databaseTimes, now);
    }
  }

  /** Retention applied to a listed manifest is retention applied to its contents, and the list
      changes exactly when the contents do. */
  lemma RetainedContents(ms: seq<Marker>, databaseTimes: seq<int>, now: int)
    requires OnePerUser(ms)
    ensures var kept := Retained(ms, databaseTimes, now);
            && OnePerUser(kept)
            && Contents(kept) == StillNeeded(Contents(ms), databaseTimes, now)
            && (kept == ms <==> Contents(kept) == Contents(ms))
  {
    var kept := Retained(ms, databaseTimes, now);
    hide Contents, Needed;
    RetainedStaysDistinct(ms, databaseTimes, now);
    DistinctContents(ms);
    DistinctContents(kept);
    hide Retained;
    forall u ensures u in Contents(kept) <==> u in StillNeeded(Contents(ms), databaseTimes, now) {
      if u in Contents(ms) {
        assert Marker(u, Contents(ms)[u]) in kept <==> Needed(Marker(u, Contents(ms)[u]), databaseTimes, now);
      }
    }
    if Contents(kept) == Contents(ms) {
      forall k <- ms ensures Needed(k, databaseTimes, now) {
        assert Marker(k.user, Contents(kept)[k.user]) in kept;
      }
      AllNeeded(ms, databaseTimes, now);
    }
  }

  method Latest(listing: seq<Snapshot>) returns (found: Option<Snapshot>)
    ensures found.None? <==> listing == []
    ensures found.Some? ==> found.value in listing && forall s <- listing :: s.time <= found.value.time
  {
    found := None;
    for i := 0 to |listing|
      invariant found.None? <==> i == 0
      invariant found.Some? ==> found.value in listing[..i]
      invariant found.Some? ==> forall n :: 0 <= n < i ==> listing[n].time <= found.value.time
    {
      if found.None? || found.value.time < listing[i].time {
        found := Some(listing[i]);
      }
      assert listing[..i + 1] == listing[..i] + [listing[i]];
    }
  }

  lemma BothGroups(a: seq<Marker>, b: seq<Marker>)
    ensures JoinAll([a, b]) == Join(Contents(a), Contents(b))
  {
    assert [a, b][..1] == [a] && [a][..0] == [];
    assert JoinAll([a]) == NoteAll(JoinAll([]), a);
    NoteAllIsJoin(Contents(a), b);
  }

  /** What `forget` leaves, in the order of the listing. */
  function Forget(s: seq<Snapshot>, kept: set<int>): seq<Snapshot>
    decreases |s|
  {
    if s == [] then []
    else
      Forget(s[..|s| - 1], kept) + (if s[|s| - 1].time in kept then [s[|s| - 1]] else [])
  }

  lemma NewestContents(s: seq<Snapshot>)
    requires s != []
    ensures Newest(AbstractAll(s)) == Contents(s[|s| - 1].markers)
  {
  }

  lemma JoinWithItself(m: Markers)
    ensures Join(m, m) == m
  {
  }

  /** The snapshot listed last is the newest one, and the only one of its time. */
  lemma LastOfAll(s: seq<Snapshot>, clock: int)
    requires WellFormed(s, clock) && s != []
    ensures var last := s[|s| - 1];
            last in s && forall x <- s :: x.time <= last.time && (x.time == last.time ==> x == last)
  {
    forall x <- s ensures x.time <= s[|s| - 1].time && (x.time == s[|s| - 1].time ==> x == s[|s| - 1]) {
      var i :| 0 <= i < |s| && s[i] == x;
    }
  }

  lemma {:induction false} ForgetKeeps(s: seq<Snapshot>, kept: set<int>)
    ensures forall x :: x in Forget(s, kept) <==> x in s && x.time in kept
    decreases |s|
  {
    if s != [] {
      ForgetKeeps(s[..|s| - 1], kept);
      assert s == s[..|s| - 1] + [s[|s| - 1]];
    }
  }

  function SnapshotTimes(s: seq<Snapshot>): seq<int> { seq(|s|, i requires 0 <= i < |s| => s[i].time) }

  lemma SameTimes(s: seq<Snapshot>)
    ensures Times(AbstractAll(s)) == SnapshotTimes(s)
  {
  }

  lemma Uploaded(s: seq<Snapshot>, clock: int, x: Snapshot)
    requires WellFormed(s, clock) && clock < x.time && OnePerUser(x.markers)
    ensures WellFormed(s + [x], x.time)
    ensures AbstractAll(s + [x]) == AbstractAll(s) + [Checkpoint(x.time, Contents(x.markers))]
  {
  }

  lemma Later(s: seq<Snapshot>, clock: int, later: int)
    requires WellFormed(s, clock) && clock <= later
    ensures WellFormed(s, later)
  {
  }

  lemma OneMoreListed(s: seq<Snapshot>, x: Snapshot, t: seq<Checkpoint>, c: Checkpoint, kept: set<int>)
    ensures Forget(s + [x], kept) == if x.time in kept then Forget(s, kept) + [x] else Forget(s, kept)
    ensures Surviving(t + [c], kept) == if c.time in kept then Surviving(t, kept) + [c] else Surviving(t, kept)
  {
    assert (s + [x])[..|s|] == s && (t + [c])[..|t|] == t;
  }

  lemma BeforeLast(s: seq<Snapshot>, clock: int)
    requires WellFormed(s, clock) && s != []
    ensures var last := s[|s| - 1];
            WellFormed(s[..|s| - 1], last.time - 1) && last.time <= clock && OnePerUser(last.markers)
  {
  }

  lemma {:induction false} Forgotten(s: seq<Snapshot>, kept: set<int>, clock: int)
    requires WellFormed(s, clock)
    ensures WellFormed(Forget(s, kept), clock)
    ensures AbstractAll(Forget(s, kept)) == Surviving(AbstractAll(s), kept)
    decreases |s|
  {
    if s != [] {
      var rest, last := s[..|s| - 1], s[|s| - 1];
      var less := Forget(rest, kept);
      BeforeLast(s, clock);
      hide WellFormed, AbstractAll, Contents, Surviving, Forget, OnePerUser;
      assert s == rest + [last];
      Forgotten(rest, kept, last.time - 1);
      Uploaded(rest, last.time - 1, last);
      OneMoreListed(rest, last, AbstractAll(rest), Checkpoint(last.time, Contents(last.markers)), kept);
      assert Forget(s, kept) == if last.time in kept then less + [last] else less;
      if last.time in kept {
        Uploaded(less, last.time - 1, last);
        Later(less + [last], last.time, clock);
      } else {
        Later(less, last.time - 1, clock);
      }
    }
  }

  class Vault {
    var closures: seq<Snapshot>
    var databases: seq<Snapshot>
    var clock: int

    ghost predicate Valid()
      reads this
    {
      WellFormed(closures, clock) && WellFormed(databases, clock)
    }

    ghost function Value(): Repository
      reads this
    {
      Repository(AbstractAll(closures), AbstractAll(databases), clock)
    }

    constructor ()
      ensures Valid() && Value() == EMPTY.repository
    {
      closures, databases, clock := [], [], 0;
    }

    method SavedMarkers() returns (markers: seq<Marker>, at: Option<int>)
      requires Valid()
      ensures Contents(markers) == Newest(Value().closures) && OnePerUser(markers)
      ensures at == if closures == [] then None else Some(closures[|closures| - 1].time)
    {
      var found := Latest(closures);
      if found.None? { return [], None; }
      assert found.value == closures[|closures| - 1];
      return found.value.markers, Some(found.value.time);
    }

    /** The closure checkpoint is committed before the database snapshot that relies on it. */
    method Backup(kind: Kind, staged: seq<Marker>, closureAt: int, databaseAt: Option<int>)
      returns (r: Result<int, Refusal>)
      requires Valid() && clock < closureAt && (databaseAt.Some? ==> closureAt < databaseAt.value)
      modifies this
      ensures Valid() && Value() == Step(old(Value()), BackUp(kind, staged, closureAt, databaseAt))
      ensures r.Err? && r.error.InvalidManifest? <==> !OnePerUser(staged)
      ensures r.Ok? <==> OnePerUser(staged) && (kind.Closures? || databaseAt.Some?)
      ensures r == Err(InvalidManifest) ==> closures == old(closures) && databases == old(databases)
      ensures r != Err(InvalidManifest) ==>
                && closures != [] && closures[..|closures| - 1] == old(closures)
                && var saved := closures[|closures| - 1];
                   && saved.time == closureAt
                   && Contents(saved.markers) == Join(Newest(old(Value()).closures), Contents(staged))
                   && databases == if r.Ok? && kind.Database? then old(databases) + [Snapshot(databaseAt.value, saved.markers)]
                                   else old(databases)
      ensures r.Ok? ==> r.value == if kind.Database? then databaseAt.value else closureAt
    {
      var previous, _ := SavedMarkers();
      if !OnePerUser(staged) { return Err(InvalidManifest); }
      var markers := MergeMarkers([previous, staged]);
      BothGroups(previous, staged);
      hide WellFormed, AbstractAll, Contents, JoinAll, Join, OnePerUser;
      Uploaded(closures, clock, Snapshot(closureAt, markers));
      Later(databases, clock, closureAt);
      closures, clock := closures + [Snapshot(closureAt, markers)], closureAt;
      if kind.Closures? { return Ok(closureAt); }
      if databaseAt.None? { return Err(UploadFailed); }
      Uploaded(databases, clock, Snapshot(databaseAt.value, markers));
      Later(closures, clock, databaseAt.value);
      databases, clock := databases + [Snapshot(databaseAt.value, markers)], databaseAt.value;
      return Ok(databaseAt.value);
    }

    /** Databases are pruned first; markers are dropped only against what survived. */
    method ApplyRetention(databasesKept: set<int>, now: int, rewriteAt: Option<int>, closuresKept: Option<set<int>>)
      returns (complete: bool)
      requires Valid() && (rewriteAt.Some? ==> clock < rewriteAt.value)
      modifies this
      ensures Valid() && Value() == Step(old(Value()), Retain(databasesKept, now, rewriteAt, closuresKept))
      ensures forall d :: d in databases <==> d in old(databases) && d.time in databasesKept
      ensures forall c <- closures :: c in old(closures) || Some(c.time) == rewriteAt
      ensures complete ==> closuresKept.Some? && forall c <- closures :: c.time in closuresKept.value
      ensures closuresKept.Some? ==> forall c <- old(closures) :: c.time in closuresKept.value ==> c in closures
      ensures closuresKept.None? ==> old(closures) <= closures
    {
      hide WellFormed, AbstractAll, Contents, StillNeeded, Surviving, Retained, OnePerUser, Forget;
      Forgotten(databases, databasesKept, clock);
      ForgetKeeps(databases, databasesKept);
      databases := Forget(databases, databasesKept);
      var markers, _ := SavedMarkers();
      var retained := RetainedMarkers(markers, SnapshotTimes(databases), now);
      SameTimes(databases);
      RetainedContents(markers, SnapshotTimes(databases), now);
      if retained != markers {
        if rewriteAt.None? { return false; }
        Uploaded(closures, clock, Snapshot(rewriteAt.value, retained));
        Later(databases, clock, rewriteAt.value);
        closures, clock := closures + [Snapshot(rewriteAt.value, retained)], rewriteAt.value;
      }
      if closuresKept.None? { return false; }
      Forgotten(closures, closuresKept.value, clock);
      ForgetKeeps(closures, closuresKept.value);
      closures := Forget(closures, closuresKept.value);
      return true;
    }

    /** What was just backed up is what a recovery gets: the newest database is the new one, with a manifest that joins
        what was checkpointed before and what was staged. */
    method BackUpAndFetch(staged: seq<Marker>, closureAt: int, databaseAt: int, named: bool) returns (r: Result<Recovery, Refusal>)
      requires Valid() && clock < closureAt < databaseAt && OnePerUser(staged)
      modifies this
      ensures Valid() && r.Ok? && r.value.database == databaseAt && r.value.checkpoint == closureAt
      ensures Contents(r.value.manifest) == Join(Newest(old(Value()).closures), Contents(staged))
    {
      hide Step, WellFormed, Contents, Join, OnePerUser, AbstractAll, Newest;
      var uploaded := Backup(Database, staged, closureAt, Some(databaseAt));
      NewestContents(closures);
      LastOfAll(databases, clock);
      r := Fetch(if named then Some(databaseAt) else None);
      JoinWithItself(Contents(closures[|closures| - 1].markers));
    }

    /** A recovery bundle: the chosen database with its own manifest merged with the newest checkpoint. */
    method Fetch(id: Option<int>) returns (r: Result<Recovery, Refusal>)
      requires Valid()
      ensures r == Err(NothingSelected) <==> id.None? && databases == []
      ensures r == Err(NoCheckpoint) <==> (id.Some? || databases != []) && closures == []
      ensures r == Err(NotADatabaseSnapshot) <==>
              id.Some? && closures != [] && forall s <- databases :: s.time != id.value
      ensures r.Ok? ==>
                exists d <- databases ::
                  && d.time == r.value.database
                  && (if id.Some? then d.time == id.value else forall s <- databases :: s.time <= d.time)
                  && Contents(r.value.manifest) == Join(Contents(d.markers), Newest(Value().closures))
                  && r.value.checkpoint == closures[|closures| - 1].time
      ensures r.Err? ==> r.error in {NothingSelected, NoCheckpoint, NotADatabaseSnapshot}
    {
      hide WellFormed, Contents, JoinAll, Join;
      var selected := id;
      if selected.None? {
        var newest := Latest(databases);
        if newest.None? { return Err(NothingSelected); }
        selected := Some(newest.value.time);
      }
      var latest, at := SavedMarkers();
      if at.None? { return Err(NoCheckpoint); }
      for i := 0 to |databases|
        invariant forall n :: 0 <= n < i ==> databases[n].time != selected.value
      {
        if databases[i].time == selected.value {
          var merged := MergeMarkers([databases[i].markers, latest]);
          BothGroups(databases[i].markers, latest);
          return Ok(Recovery(selected.value, at.value, merged));
        }
      }
      return Err(NotADatabaseSnapshot);
    }
  }
}
