/** The purchase attempts of one account, and the payment provider that answers for them.

    The account lock makes every transaction atomic, so the history of an account is a sequence of
    moves of the world (the provider acts, a request is sent, time passes) and of commits that change
    saved rows. The world can move between any two commits and while a transaction is waiting for a
    reply; a transaction that fails or crashes is a stretch of history without its commit. */
module CheckoutProtocol {
  import opened Prelude

  const HOUR := 3_600_000_000
  const REPLAY_WINDOW := 23 * HOUR
  const KEY_LIFETIME := 24 * HOUR
  const DELIVERY_LIMIT := HOUR

  // ---- At the provider ----

  datatype Status = Open | Expired | Complete

  datatype Subscription = NoSubscription | Live | Terminal

  datatype Session = Session(status: Status, subscription: Subscription)

  /** What one idempotency key stands for: the sessions created under it, when the first was created,
      and when we last sent the request. */
  datatype Remote = Remote(sessions: seq<Session>, firstUse: int, lastSend: Option<int>)

  const UNUSED := Remote([], 0, None)

  /** A session that has a subscription never expires. */
  predicate Legal(s: Session) { s.status.Expired? ==> s.subscription.NoSubscription? }

  /** Expired and complete are absorbing, and a terminal subscription stays terminal. */
  predicate SessionMoves(a: Session, b: Session) {
    && (!a.status.Open? ==> b.status == a.status)
    && (a.subscription.Terminal? ==> b.subscription.Terminal?)
    && (a.subscription.Live? ==> !b.subscription.NoSubscription?)
  }

  /** No money can be taken any more. */
  predicate Dead(s: Session) {
    s.status.Expired? || (s.status.Complete? && s.subscription.Terminal?)
  }

  /** A request can be delivered late, but not by more than an hour; a key is remembered for at least
      a day, so a second session needs a delivery after that. */
  predicate RemoteActs(a: Remote, b: Remote, from: int, to: int) {
    && (b.lastSend == a.lastSend || (b.lastSend.Some? && from <= b.lastSend.value <= to))
    && (a.lastSend.Some? ==> a.lastSend.value <= b.lastSend.value)
    && |a.sessions| <= |b.sessions|
    && (forall k :: 0 <= k < |a.sessions| ==> SessionMoves(a.sessions[k], b.sessions[k]))
    && (forall k :: 0 <= k < |b.sessions| ==> Legal(b.sessions[k]))
    && (a.sessions != [] ==> b.firstUse == a.firstUse)
    && (a.sessions == [] && b.sessions != [] ==> b.lastSend.Some? && from <= b.firstUse <= to)
    && (|a.sessions| < |b.sessions| && 1 < |b.sessions| ==>
          b.lastSend.Some? && b.firstUse + KEY_LIFETIME < b.lastSend.value + DELIVERY_LIMIT)
  }

  /** Nothing is sent for an attempt more than 23 hours old. */
  predicate RemoteMoves(createdAt: int, a: Remote, b: Remote, from: int, to: int) {
    && RemoteActs(a, b, from, to)
    && (b.lastSend == a.lastSend || b.lastSend.value <= createdAt + REPLAY_WINDOW)
  }

  // ---- In the database ----

  datatype Target = Target(code: string, revision: nat, interval: string)

  datatype IntentState = Pending | Blocked | Replaced(successor: nat)

  datatype Intent = Intent(id: nat, target: Target, state: IntentState)

  /** The last observation of an attempt: `Creating` until a session is known. */
  datatype Seen = Creating | SeenOpen | SeenExpired | SeenComplete

  datatype Row = Row(target: Target, createdAt: int, seen: Seen, terminal: Option<bool>, intent: Option<Intent>)

  /** Rows in creation order, each with the provider's record of its key. */
  datatype State = State(rows: seq<Row>, remotes: seq<Remote>, now: int)

  predicate IsPending(r: Row) { r.intent.Some? && r.intent.value.state.Pending? }

  /** Whatever a row says is still true at the provider. */
  predicate Truth(r: Row, m: Remote) {
    && (!r.seen.Creating? || r.terminal.Some? ==> m.sessions != [])
    && (r.seen.SeenExpired? ==> m.sessions[0].status.Expired?)
    && (r.seen.SeenComplete? ==> m.sessions[0].status.Complete?)
    && (r.terminal.Some? ==> !m.sessions[0].subscription.NoSubscription?)
    && (r.terminal == Some(true) ==> m.sessions[0].subscription.Terminal?)
  }

  /** A saved completion also names its subscription. */
  predicate Sound(r: Row, m: Remote) {
    Truth(r, m) && (r.seen.SeenComplete? ==> r.terminal.Some?)
  }

  predicate World(s: State, t: State) {
    && t.rows == s.rows && |s.remotes| == |t.remotes| == |s.rows| && s.now <= t.now
    && forall i :: 0 <= i < |s.rows| ==> RemoteMoves(s.rows[i].createdAt, s.remotes[i], t.remotes[i], s.now, t.now)
  }

  /** The request of attempt `k` is sent although the attempt is too old; otherwise the world moves as always. */
  predicate LateSend(s: State, t: State, k: nat)
    requires k < |s.rows| == |s.remotes|
  {
    && t.rows == s.rows && |t.remotes| == |s.rows| && s.now <= t.now && s.rows[k].createdAt + REPLAY_WINDOW < s.now
    && (forall i :: 0 <= i < |s.rows| && i != k ==>
          RemoteMoves(s.rows[i].createdAt, s.remotes[i], t.remotes[i], s.now, t.now))
    && RemoteActs(s.remotes[k], t.remotes[k], s.now, t.now)
    && t.remotes[k].lastSend.Some? && s.now <= t.remotes[k].lastSend.value
  }

  /** Consent is given for the newest attempt only, and is either kept, withdrawn, or carried out by
      adding exactly one successor with the agreed terms. */
  predicate IntentMoves(rows: seq<Row>, i: nat, next: seq<Row>)
    requires i < |rows| <= |next|
  {
    var a, b := rows[i].intent, next[i].intent;
    || (b == a && (IsPending(rows[i]) ==> |next| == |rows|))
    || (i == |rows| - 1 && |next| == |rows| && b.Some? &&
        (if IsPending(rows[i]) then b.value == a.value.(state := Blocked)
         else b.value.state.Pending? && (a.Some? ==> a.value.state.Blocked?)))
    || (i == |rows| - 1 && |next| == |rows| + 1 && IsPending(rows[i]) && b.Some?
        && b.value == a.value.(state := Replaced(|rows|)) && next[|rows|].target == a.value.target)
  }

  /** One commit: observations stay truthful and terms never change. A new attempt needs the previous
      one to be dead, and no pending consent other than the one it carries out. */
  predicate Commit(s: State, t: State) {
    && t.now == s.now && |s.remotes| == |s.rows| && |t.remotes| == |t.rows|
    && |s.rows| <= |t.rows| <= |s.rows| + 1 && s.remotes <= t.remotes
    && (forall i :: 0 <= i < |s.rows| ==>
          && t.rows[i].target == s.rows[i].target && t.rows[i].createdAt == s.rows[i].createdAt
          && Sound(t.rows[i], t.remotes[i])
          && IntentMoves(s.rows, i, t.rows))
    && (|t.rows| == |s.rows| + 1 ==>
          && t.remotes[|s.rows|] == UNUSED
          && t.rows[|s.rows|] == Row(t.rows[|s.rows|].target, t.rows[|s.rows|].createdAt, Creating, None, None)
          && t.rows[|s.rows|].createdAt <= s.now
          && (s.rows != [] ==>
                && s.rows[|s.rows| - 1].createdAt < t.rows[|s.rows|].createdAt
                && var last := s.remotes[|s.rows| - 1].sessions; last != [] && Dead(last[0])))
  }

  /** A whole transaction: the world moves while it runs, then it commits. */
  predicate Transaction(s: State, t: State)
  {
    |s.rows| <= |t.remotes| &&
    var m := State(s.rows, t.remotes[..|s.rows|], t.now);
    World(s, m) && Commit(m, t)
  }

  // ---- Safety ----

  ghost predicate AttemptOk(s: State, i: nat)
    requires i < |s.rows| == |s.remotes|
  {
    var r, m := s.rows[i], s.remotes[i];
    && |m.sessions| <= 1
    && (forall k :: 0 <= k < |m.sessions| ==> Legal(m.sessions[k]))
    && Sound(r, m)
    && r.createdAt <= s.now
    && (m.sessions != [] ==> r.createdAt <= m.firstUse)
    && (m.lastSend.Some? ==> m.lastSend.value <= s.now && m.lastSend.value <= r.createdAt + REPLAY_WINDOW)
    && (i < |s.rows| - 1 ==> m.sessions != [] && Dead(m.sessions[0]) && r.createdAt < s.rows[i + 1].createdAt)
  }

  ghost predicate IntentOk(s: State, i: nat)
    requires i < |s.rows|
  {
    var n := s.rows[i].intent;
    n.Some? ==>
      && (n.value.state.Pending? ==> i == |s.rows| - 1)
      && (n.value.state.Replaced? ==>
            && n.value.state.successor == i + 1 < |s.rows|
            && s.rows[i + 1].target == n.value.target)
  }

  ghost predicate Inv(s: State) {
    && |s.rows| == |s.remotes|
    && forall i :: 0 <= i < |s.rows| ==> AttemptOk(s, i) && IntentOk(s, i)
  }

  lemma TruthLasts(r: Row, m: Remote, n: Remote, from: int, to: int)
    requires Truth(r, m) && RemoteMoves(r.createdAt, m, n, from, to)
    ensures Truth(r, n)
  {
  }

  lemma WorldKeepsInv(s: State, t: State)
    requires Inv(s) && World(s, t)
    ensures Inv(t)
  {
    forall i | 0 <= i < |t.rows| ensures AttemptOk(t, i) && IntentOk(t, i) {
      assert AttemptOk(s, i) && IntentOk(s, i);
      TruthLasts(s.rows[i], s.remotes[i], t.remotes[i], s.now, t.now);
    }
  }

  lemma CommitKeepsInv(s: State, t: State)
    requires Inv(s) && Commit(s, t)
    ensures Inv(t)
  {
    var n := |s.rows|;
    forall i | 0 <= i < |t.rows| ensures AttemptOk(t, i) {
      if i < n { assert AttemptOk(s, i); }
      if i + 1 < n { assert AttemptOk(s, i + 1); }
    }
    forall i | 0 <= i < |t.rows| ensures IntentOk(t, i) {
      if i < n { assert IntentOk(s, i) && IntentMoves(s.rows, i, t.rows); }
    }
  }

  /** A history: every step is a move of the world or a commit. */
  ghost predicate History(h: seq<State>) {
    && h != []
    && forall k :: 0 < k < |h| ==> World(h[k - 1], h[k]) || Commit(h[k - 1], h[k])
  }

  lemma {:induction false} HistoryKeepsInv(h: seq<State>)
    requires History(h) && Inv(h[0])
    ensures Inv(h[|h| - 1])
    decreases |h|
  {
    if |h| > 1 {
      var before := h[..|h| - 1];
      HistoryKeepsInv(before);
      assert World(h[|h| - 2], h[|h| - 1]) || Commit(h[|h| - 2], h[|h| - 1]);
      if World(h[|h| - 2], h[|h| - 1]) { WorldKeepsInv(h[|h| - 2], h[|h| - 1]); }
      else { CommitKeepsInv(h[|h| - 2], h[|h| - 1]); }
    }
  }

  const EMPTY := State([], [], 0)

  /** An account never has two live purchases: at every moment of every history without late requests, two
      provider sessions that could both still take money are one and the same. */
  lemma OneLivePurchase(h: seq<State>, i: nat, j: nat, k: nat, l: nat)
    requires History(h) && h[0].rows == [] && h[0].remotes == []
    requires var s := h[|h| - 1];
             && i < |s.remotes| && j < |s.remotes| && k < |s.remotes[i].sessions| && l < |s.remotes[j].sessions|
             && !Dead(s.remotes[i].sessions[k]) && !Dead(s.remotes[j].sessions[l])
    ensures i == j && k == l
  {
    HistoryKeepsInv(h);
    var s := h[|h| - 1];
    assert AttemptOk(s, i) && AttemptOk(s, j);
  }

  /** Consent, once carried out, names the same successor for ever, and that successor has exactly the
      agreed terms: any number of exact retries leads to it. */
  lemma {:induction false} OneSuccessorPerConsent(h: seq<State>, i: nat)
    requires History(h) && Inv(h[0]) && i < |h[0].rows|
    requires h[0].rows[i].intent.Some? && h[0].rows[i].intent.value.state.Replaced?
    ensures var t := h[|h| - 1];
            && i + 1 < |t.rows| && t.rows[i].intent == h[0].rows[i].intent
            && t.rows[i].intent.value.state.successor == i + 1
            && t.rows[i + 1].target == t.rows[i].intent.value.target
    decreases |h|
  {
    var t := h[|h| - 1];
    if |h| > 1 {
      OneSuccessorPerConsent(h[..|h| - 1], i);
      var s := h[|h| - 2];
      assert World(s, t) || Commit(s, t);
      if !World(s, t) { assert IntentMoves(s.rows, i, t.rows) && t.rows[i + 1].target == s.rows[i + 1].target; }
    } else {
      assert IntentOk(t, i);
    }
  }

  /** While a consent is pending the only attempt that can be added is the one it agreed to. */
  lemma PendingFencesCreation(s: State, t: State)
    requires Inv(s) && Commit(s, t) && s.rows != [] && IsPending(s.rows[|s.rows| - 1]) && |s.rows| < |t.rows|
    ensures var i := |s.rows| - 1;
            && t.rows[i].intent == Some(s.rows[i].intent.value.(state := Replaced(i + 1)))
            && t.rows[i + 1].target == s.rows[i].intent.value.target
  {
    assert IntentMoves(s.rows, |s.rows| - 1, t.rows);
  }

  datatype Phase = NoConsent | Waiting | Stopped | Linked

  function PhaseOf(r: Row): Phase {
    if r.intent.None? then NoConsent
    else match r.intent.value.state
      case Pending => Waiting
      case Blocked => Stopped
      case Replaced(_) => Linked
  }

  /** A consent moves only from none or stopped to waiting, and from waiting to stopped or carried out; it is
      carried out exactly by the commit that adds its successor. */
  lemma ConsentLifecycle(s: State, t: State, i: nat)
    requires Inv(s) && (World(s, t) || Commit(s, t)) && i < |s.rows|
    ensures var a, b := PhaseOf(s.rows[i]), PhaseOf(t.rows[i]);
            && (b == a || (b.Waiting? && (a.NoConsent? || a.Stopped?)) || (a.Waiting? && (b.Stopped? || b.Linked?)))
            && (a.Waiting? ==> (b.Linked? <==> |s.rows| < |t.rows|))
  {
    if !World(s, t) {
      assert IntentOk(s, i) && IntentMoves(s.rows, i, t.rows);
    }
  }

  // ---- Putting steps together ----

  lemma WorldIsTransitive(s: State, t: State, u: State)
    requires World(s, t) && World(t, u)
    ensures World(s, u)
  {
    forall i | 0 <= i < |s.rows|
      ensures RemoteMoves(s.rows[i].createdAt, s.remotes[i], u.remotes[i], s.now, u.now)
    {
      assert RemoteMoves(s.rows[i].createdAt, s.remotes[i], t.remotes[i], s.now, t.now);
      assert RemoteMoves(t.rows[i].createdAt, t.remotes[i], u.remotes[i], t.now, u.now);
    }
  }

  lemma NoTimePasses(s: State)
    requires Inv(s)
    ensures World(s, s)
  {
    forall i | 0 <= i < |s.rows| ensures RemoteMoves(s.rows[i].createdAt, s.remotes[i], s.remotes[i], s.now, s.now) {
      assert AttemptOk(s, i);
    }
  }

  lemma TimeAlonePasses(s: State, now: int)
    requires Inv(s) && s.now <= now
    ensures World(s, s.(now := now)) && Inv(s.(now := now))
  {
    forall i | 0 <= i < |s.rows| ensures RemoteMoves(s.rows[i].createdAt, s.remotes[i], s.remotes[i], s.now, now) {
      assert AttemptOk(s, i);
    }
    WorldKeepsInv(s, s.(now := now));
  }

  /** A transaction that fails is one that commits nothing. */
  lemma RollbackIsATransaction(s: State, t: State)
    requires Inv(s) && World(s, t)
    ensures Transaction(s, t)
  {
    WorldKeepsInv(s, t);
    assert t.remotes[..|s.rows|] == t.remotes;
    forall i | 0 <= i < |s.rows| ensures Sound(t.rows[i], t.remotes[i]) { assert AttemptOk(t, i); }
  }

  ghost predicate Reaches(s: State, t: State) {
    exists h: seq<State> :: History(h) && h[0] == s && h[|h| - 1] == t
  }

  /** Whatever a new account goes through, as long as no request is sent too late, two sessions that could still
      take money are one and the same. */
  lemma ReachableIsSafe(now: int, t: State, i: nat, j: nat, k: nat, l: nat)
    requires Reaches(State([], [], now), t)
    requires i < |t.remotes| && j < |t.remotes| && k < |t.remotes[i].sessions| && l < |t.remotes[j].sessions|
    requires !Dead(t.remotes[i].sessions[k]) && !Dead(t.remotes[j].sessions[l])
    ensures i == j && k == l
  {
    var h :| History(h) && h[0] == State([], [], now) && h[|h| - 1] == t;
    OneLivePurchase(h, i, j, k, l);
  }

  lemma TransactionReaches(s: State, t: State)
    requires Transaction(s, t)
    ensures Reaches(s, t)
  {
    var m := State(s.rows, t.remotes[..|s.rows|], t.now);
    var h := [s, m, t];
    assert History(h) && h[0] == s && h[|h| - 1] == t;
  }

  lemma ReachesIsTransitive(s: State, t: State, u: State)
    requires Reaches(s, t) && Reaches(t, u)
    ensures Reaches(s, u)
  {
    hide World, Commit;
    var g :| History(g) && g[0] == s && g[|g| - 1] == t;
    var h :| History(h) && h[0] == t && h[|h| - 1] == u;
    var both := g + h[1..];
    forall k | 0 < k < |both| ensures World(both[k - 1], both[k]) || Commit(both[k - 1], both[k]) {
      if k < |g| {
      } else {
        var l := k - |g| + 1;
        assert both[k] == h[l] && both[k - 1] == h[l - 1];
      }
    }
    assert History(both) && both[0] == s && both[|both| - 1] == u;
  }

  // ---- The replay window is what makes it safe ----

  /** A request sent at `sentAt` for an attempt of `createdAt` can leave two sessions under its key exactly
      when it is sent more than 23 hours after the attempt was saved. */
  lemma WindowIsExact(createdAt: int, sentAt: int)
    requires createdAt <= sentAt
    ensures (exists b: Remote, to: int ::
               RemoteActs(UNUSED, b, createdAt, to) && b.lastSend == Some(sentAt) && |b.sessions| == 2)
            <==> createdAt + REPLAY_WINDOW < sentAt
  {
    if createdAt + REPLAY_WINDOW < sentAt {
      var live := Session(Open, NoSubscription);
      assert RemoteActs(UNUSED, Remote([live, live], createdAt, Some(sentAt)), createdAt, sentAt);
    }
  }

  /** What the provider and the network may do next if the request of attempt `k` is sent regardless of its age. */
  ghost predicate MayHappen(s: State, t: State, k: nat)
    requires k < |s.rows| == |s.remotes|
  {
    World(s, t) || LateSend(s, t, k)
  }

  /** A request sent late can create a second session next to the one whose answer was lost. */
  lemma SecondSession(s: State, k: nat) returns (t: State)
    requires Inv(s) && k < |s.rows| && s.remotes[k].sessions != [] && s.rows[k].createdAt + REPLAY_WINDOW < s.now
    ensures LateSend(s, t, k) && |t.remotes[k].sessions| == 2
    ensures t.remotes[k].sessions == s.remotes[k].sessions + [Session(Open, NoSubscription)]
  {
    var m := s.remotes[k];
    var sentAt := if s.now < m.firstUse + KEY_LIFETIME then m.firstUse + KEY_LIFETIME else s.now;
    var again := Remote(m.sessions + [Session(Open, NoSubscription)], m.firstUse, Some(sentAt));
    t := State(s.rows, s.remotes[k := again], sentAt);
    forall i | 0 <= i < |s.rows| && i != k
      ensures RemoteMoves(s.rows[i].createdAt, s.remotes[i], t.remotes[i], s.now, t.now)
    {
      assert AttemptOk(s, i);
    }
    assert AttemptOk(s, k);
  }

  /** An attempt with a session keeps that single one whatever happens next, its own request sent once more
      included, exactly while it is no older than 23 hours. */
  lemma OneSessionIff(s: State, k: nat)
    requires Inv(s) && k < |s.rows| && s.remotes[k].sessions != []
    ensures (forall t :: MayHappen(s, t, k) ==> |t.remotes[k].sessions| <= 1) <==> s.now <= s.rows[k].createdAt + REPLAY_WINDOW
  {
    if s.now <= s.rows[k].createdAt + REPLAY_WINDOW {
      forall t | MayHappen(s, t, k) ensures |t.remotes[k].sessions| <= 1 {
        WorldKeepsInv(s, t);
        assert AttemptOk(t, k);
      }
    } else {
      var t := SecondSession(s, k);
      assert MayHappen(s, t, k);
    }
  }

  /** So a late first request can give a new account two live purchases, at any moment after the window: the attempt
      was saved, another request sent its creation request and lost the answer, and now it is sent again. */
  lemma LateRequestDuplicates(target: Target, sentAt: int) returns (s: State, t: State)
    requires REPLAY_WINDOW < sentAt
    ensures Reaches(EMPTY, s) && Inv(s) && s.now == sentAt && s.rows == [Row(target, 0, Creating, None, None)]
    ensures LateSend(s, t, 0) && |t.remotes| == 1 && |t.remotes[0].sessions| == 2
    ensures !Dead(t.remotes[0].sessions[0]) && !Dead(t.remotes[0].sessions[1])
  {
    var row, live := Row(target, 0, Creating, None, None), Session(Open, NoSubscription);
    var saved := State([row], [UNUSED], 0);
    s := State([row], [Remote([live], 0, Some(0))], sentAt);
    var h := [EMPTY, saved, s];
    assert Commit(EMPTY, saved) && World(saved, s);
    assert History(h) && h[0] == EMPTY && h[|h| - 1] == s;
    HistoryKeepsInv(h);
    t := SecondSession(s, 0);
  }
}
