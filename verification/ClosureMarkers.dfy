/** Closure markers: merging manifests and dropping the markers no restore can need. */
module ClosureMarkers {

  /** A request time as written in a manifest; two texts can denote the same instant. */
  datatype Stamp = Stamp(instant: int, text: string)

  datatype Marker = Marker(user: nat, requestedAt: Stamp)

  type Markers = map<nat, Stamp>

  const CLOSURE_DAYS := 65
  const DATABASE_DAYS := 35
  const DAY_SECONDS := 86_400

  /** A marker replaces a known one only if it is strictly earlier. */
  function Note(m: Markers, k: Marker): Markers {
    if k.user !in m || k.requestedAt.instant < m[k.user].instant then m[k.user := k.requestedAt] else m
  }

  function NoteAll(m: Markers, group: seq<Marker>): Markers
    decreases |group|
  {
    if group == [] then m else Note(NoteAll(m, group[..|group| - 1]), group[|group| - 1])
  }

  function Contents(group: seq<Marker>): Markers { NoteAll(map[], group) }

  /** Keep the earlier time of every user; on equal times keep the left text. */
  function Join(a: Markers, b: Markers): Markers {
    map u | u in a.Keys + b.Keys ::
      if u !in a || (u in b && b[u].instant < a[u].instant) then b[u] else a[u]
  }

  /** Reading a group after others is joining its contents. */
  lemma {:induction false} NoteAllIsJoin(m: Markers, group: seq<Marker>)
    ensures NoteAll(m, group) == Join(m, Contents(group))
    decreases |group|
  {
    if group != [] {
      NoteAllIsJoin(m, group[..|group| - 1]);
    }
  }

  function JoinAll(groups: seq<seq<Marker>>): Markers
    decreases |groups|
  {
    if groups == [] then map[]
    else NoteAll(JoinAll(groups[..|groups| - 1]), groups[|groups| - 1])
  }

  predicate Ascending(ms: seq<Marker>) {
    forall i, j :: 0 <= i < j < |ms| ==> ms[i].user < ms[j].user
  }

  predicate OnePerUser(ms: seq<Marker>) {
    forall i, j :: 0 <= i < j < |ms| ==> ms[i].user != ms[j].user
  }

  lemma Least(keys: set<nat>) returns (least: nat)
    requires keys != {}
    ensures least in keys && forall j <- keys :: least <= j
  {
    least :| least in keys;
    if keys != {least} {
      var other := Least(keys - {least});
      assert forall j <- keys :: j == least || j in keys - {least};
      least := if other < least then other else least;
    }
  }

  /** `m` written out in user order after the entries already written. */
  predicate Written(ms: seq<Marker>, m: Markers, left: set<nat>) {
    && Ascending(ms)
    && (forall k <- ms :: k.user in m && m[k.user] == k.requestedAt && k.user !in left)
    && (forall u <- m.Keys :: u in left || Marker(u, m[u]) in ms)
    && (forall k <- ms, u <- left :: k.user < u)
  }

  lemma WrittenGrows(ms: seq<Marker>, m: Markers, left: set<nat>, u: nat)
    requires Written(ms, m, left) && u in left && left <= m.Keys && forall j <- left :: u <= j
    ensures Written(ms + [Marker(u, m[u])], m, left - {u})
  {
    var grown := ms + [Marker(u, m[u])];
    assert forall k :: k in grown <==> k in ms || k == Marker(u, m[u]);
  }

  /** One marker per user, in user order. */
  method InUserOrder(m: Markers) returns (ms: seq<Marker>)
    ensures Written(ms, m, {})
    ensures Contents(ms) == m
  {
    ms := [];
    var left := m.Keys;
    while left != {}
      invariant left <= m.Keys
      invariant Written(ms, m, left)
      decreases |left|
    {
      hide Written;
      ghost var least := Least(left);
      var u :| u in left && forall j <- left :: u <= j;
      WrittenGrows(ms, m, left, u);
      ms := ms + [Marker(u, m[u])];
      left := left - {u};
    }
    WrittenContents(ms, m);
  }

  /** Preserve every known closure: the earliest request of every user, listed once, in user order. */
  method MergeMarkers(groups: seq<seq<Marker>>) returns (merged: seq<Marker>)
    ensures Written(merged, JoinAll(groups), {}) && OnePerUser(merged)
    ensures Contents(merged) == JoinAll(groups)
  {
    var m: Markers := map[];
    for g := 0 to |groups|
      invariant m == JoinAll(groups[..g])
    {
      ghost var before := m;
      for i := 0 to |groups[g]|
        invariant m == NoteAll(before, groups[g][..i])
      {
        assert groups[g][..i + 1][..i] == groups[g][..i];
        var k := groups[g][i];
        if k.user !in m || k.requestedAt.instant < m[k.user].instant {
          m := m[k.user := k.requestedAt];
        }
      }
      assert groups[g][..|groups[g]|] == groups[g];
      assert groups[..g + 1][..g] == groups[..g];
    }
    assert groups[..|groups|] == groups;
    merged := InUserOrder(m);
  }

  /** A written manifest reads back as the map it was written from. */
  lemma {:induction false} WrittenContents(ms: seq<Marker>, m: Markers)
    requires Written(ms, m, {})
    ensures Contents(ms) == m
  {
    DistinctContents(ms);
    assert forall u <- m.Keys :: Marker(u, m[u]) in ms;
  }

  /** A manifest without repeated users reads back marker by marker. */
  lemma {:induction false} DistinctContents(ms: seq<Marker>)
    requires OnePerUser(ms)
    ensures forall u <- Contents(ms).Keys :: Marker(u, Contents(ms)[u]) in ms
    ensures forall k <- ms :: k.user in Contents(ms) && Contents(ms)[k.user] == k.requestedAt
    decreases |ms|
  {
    if ms != [] {
      var rest, last := ms[..|ms| - 1], ms[|ms| - 1];
      DistinctContents(rest);
      assert ms == rest + [last];
      assert last.user !in Contents(rest);
    }
  }

  // ---- What a merge means ----

  /** `m` holds exactly the earliest known request of every user named in `groups`. */
  ghost predicate EarliestOf(groups: seq<seq<Marker>>, m: Markers) {
    && (forall g <- groups, k <- g :: k.user in m && m[k.user].instant <= k.requestedAt.instant)
    && (forall u <- m.Keys :: exists g <- groups :: Marker(u, m[u]) in g)
  }

  lemma {:induction false} NoteAllKeepsEarliest(m: Markers, group: seq<Marker>)
    ensures forall k <- group :: k.user in NoteAll(m, group) && NoteAll(m, group)[k.user].instant <= k.requestedAt.instant
    ensures forall u <- m.Keys :: u in NoteAll(m, group) && NoteAll(m, group)[u].instant <= m[u].instant
    ensures forall u <- NoteAll(m, group).Keys ::
              (u in m && NoteAll(m, group)[u] == m[u]) || Marker(u, NoteAll(m, group)[u]) in group
    decreases |group|
  {
    if group != [] {
      NoteAllKeepsEarliest(m, group[..|group| - 1]);
      assert group == group[..|group| - 1] + [group[|group| - 1]];
    }
  }

  lemma {:induction false} MergeKeepsEarliest(groups: seq<seq<Marker>>)
    ensures EarliestOf(groups, JoinAll(groups))
    decreases |groups|
  {
    if groups != [] {
      var rest, last := groups[..|groups| - 1], groups[|groups| - 1];
      MergeKeepsEarliest(rest);
      NoteAllKeepsEarliest(JoinAll(rest), last);
      assert groups == rest + [last];
      forall u <- JoinAll(groups).Keys ensures exists g <- groups :: Marker(u, JoinAll(groups)[u]) in g {
        if Marker(u, JoinAll(groups)[u]) in last {
          assert last in groups;
        } else {
          var g :| g in rest && Marker(u, JoinAll(rest)[u]) in g;
          assert g in groups;
        }
      }
    }
  }

  /** Merging is idempotent, so re-reading a checkpoint adds nothing. */
  lemma MergeIdempotent(a: Markers, b: Markers)
    ensures Join(a, a) == a && Join(a, map[]) == a && Join(map[], a) == a
    ensures Join(Join(a, b), b) == Join(a, b)
  {
  }

  lemma JoinAt(a: Markers, b: Markers, u: nat)
    ensures u in Join(a, b) <==> u in a || u in b
    ensures u in Join(a, b) ==> Join(a, b)[u] == if u !in a || (u in b && b[u].instant < a[u].instant) then b[u] else a[u]
  {
  }

  /** Merging is associative, so checkpoints can be merged in any grouping. */
  lemma MergeAssociative(a: Markers, b: Markers, c: Markers)
    ensures Join(Join(a, b), c) == Join(a, Join(b, c))
  {
    hide Join;
    var l, r := Join(Join(a, b), c), Join(a, Join(b, c));
    forall u ensures (u in l <==> u in r) && (u in l ==> l[u] == r[u]) {
      JoinAt(a, b, u); JoinAt(b, c, u); JoinAt(Join(a, b), c, u); JoinAt(a, Join(b, c), u);
    }
  }

  /** Merging commutes exactly when no user has one instant written in two ways; the instants always agree. */
  lemma MergeCommutes(a: Markers, b: Markers)
    ensures forall u :: u in Join(a, b) <==> u in Join(b, a)
    ensures forall u :: u in Join(a, b) ==> Join(a, b)[u].instant == Join(b, a)[u].instant
    ensures Join(a, b) == Join(b, a) <==>
            forall u :: u in a && u in b && a[u].instant == b[u].instant ==> a[u] == b[u]
  {
    if Join(a, b) == Join(b, a) {
      forall u | u in a && u in b && a[u].instant == b[u].instant ensures a[u] == b[u] {
        assert Join(a, b)[u] == a[u] && Join(b, a)[u] == b[u];
      }
    }
  }

  // ---- Retention ----

  /** Some snapshot predates the request, so restoring it would revive the account. */
  predicate Restorable(k: Marker, databaseTimes: seq<int>) {
    exists t <- databaseTimes :: t <= k.requestedAt.instant
  }

  lemma OneMoreSnapshot(k: Marker, times: seq<int>, t: int)
    ensures Restorable(k, times + [t]) <==> Restorable(k, times) || t <= k.requestedAt.instant
  {
    if t <= k.requestedAt.instant {
      assert t in times + [t];
    }
    if Restorable(k, times) {
      var s :| s in times && s <= k.requestedAt.instant;
      assert s in times + [t];
    }
  }

  /** A marker is needed while it is young or while some surviving database snapshot predates the request. */
  predicate Needed(k: Marker, databaseTimes: seq<int>, now: int) {
    || now - CLOSURE_DAYS * DAY_SECONDS <= k.requestedAt.instant
    || Restorable(k, databaseTimes)
  }

  ghost function Retained(ms: seq<Marker>, databaseTimes: seq<int>, now: int): (r: seq<Marker>)
    ensures forall k :: k in r <==> k in ms && Needed(k, databaseTimes, now)
    decreases |ms|
  {
    if ms == [] then []
    else
      var k := ms[|ms| - 1];
      assert ms == ms[..|ms| - 1] + [k];
      Retained(ms[..|ms| - 1], databaseTimes, now) + (if Needed(k, databaseTimes, now) then [k] else [])
  }

  method RetainedMarkers(ms: seq<Marker>, databaseTimes: seq<int>, now: int) returns (retained: seq<Marker>)
    ensures retained == Retained(ms, databaseTimes, now)
    ensures forall k :: k in retained <==>
              k in ms && (now - 65 * 86_400 <= k.requestedAt.instant || exists t <- databaseTimes :: t <= k.requestedAt.instant)
  {
    retained := [];
    var cutoff := now - CLOSURE_DAYS * DAY_SECONDS;
    for i := 0 to |ms|
      invariant retained == Retained(ms[..i], databaseTimes, now)
    {
      var restorable := false;
      for j := 0 to |databaseTimes|
        invariant restorable <==> Restorable(ms[i], databaseTimes[..j])
      {
        assert databaseTimes[..j + 1] == databaseTimes[..j] + [databaseTimes[j]];
        OneMoreSnapshot(ms[i], databaseTimes[..j], databaseTimes[j]);
        restorable := restorable || databaseTimes[j] <= ms[i].requestedAt.instant;
      }
      assert databaseTimes[..|databaseTimes|] == databaseTimes;
      assert ms[..i + 1][..i] == ms[..i];
      if ms[i].requestedAt.instant >= cutoff || restorable {
        retained := retained + [ms[i]];
      }
    }
    assert ms[..|ms|] == ms;
  }

  /** When pruning has left only snapshots of the last 35 days, exactly the markers of the last 65 days stay. */
  lemma RetentionHorizon(k: Marker, databaseTimes: seq<int>, now: int)
    requires forall t <- databaseTimes :: now - DATABASE_DAYS * DAY_SECONDS <= t
    ensures Needed(k, databaseTimes, now) <==> now - CLOSURE_DAYS * DAY_SECONDS <= k.requestedAt.instant
  {
  }
}
