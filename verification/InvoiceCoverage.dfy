/** When saved payment evidence covers a subscription: chains of upgrade invoices down to a paid one. */
module InvoiceCoverage {
  import opened Prelude

  const DAY := 86_400
  const MAX_HOPS := 16
  const MAX_CANDIDATES := 16

  datatype Status = Draft | Open | Paid | Void | Uncollectible

  datatype Reason = Create | Cycle | Update | OtherReason

  /** `issue` says why the invoice needs review, if it does. */
  datatype Invoice = Invoice(checkout: nat, status: Status, issue: Option<string>, amountPaid: nat, remaining: nat,
                             attempts: nat, reason: Reason, start: Option<int>, end: Option<int>, paidAt: Option<int>)

  /** An upgrade intent, found by the invoice that bills it; its source invoice paid for the plan before. */
  datatype Upgrade = Upgrade(checkout: nat, source: nat, sourcePlan: nat, quoted: nat, start: int, end: int, from: int,
                             applied: bool, expired: bool)

  datatype Checkout = Checkout(id: nat, latest: Option<nat>, start: Option<int>, end: Option<int>, cancels: bool)

  /** The saved evidence. `newest` lists invoices by creation and `latestUpgrades` the invoices of upgrades
      by start of their charge, both latest first; `tierRaises` are the (plan, start) pairs of applied
      renewals to a higher tier. */
  datatype Books = Books(invoices: map<nat, Invoice>, upgrades: map<nat, Upgrade>, newest: seq<nat>,
                         latestUpgrades: seq<nat>, tierRaises: set<(nat, int)>)

  datatype Problem =
    | NoInvoice | ChainTooLong | UpgradeUnverified | UpgradeUnsettled | UpgradeOtherPeriod | SourceNotCovered
    | Reviewed(text: string) | PeriodUnverified | OtherPeriod

  datatype Assessment = Assessment(status: Option<Status>, paidThrough: Option<int>, graceUntil: Option<int>,
                                   covered: bool, issue: Option<Problem>)

  /** The upgrade billed by an invoice of this checkout. */
  function UpgradeOf(b: Books, checkout: nat, id: nat): Option<Upgrade> {
    if id in b.upgrades && b.upgrades[id].checkout == checkout then Some(b.upgrades[id]) else None
  }

  predicate Owned(b: Books, checkout: nat, id: nat) { id in b.invoices && b.invoices[id].checkout == checkout }

  predicate FullyPaid(v: Invoice) { v.status.Paid? && v.paidAt.Some? && v.remaining == 0 }

  // ---- What coverage is ----

  /** An ordinary invoice, paid in full without anything to review, for exactly the checkout's period. */
  predicate PaysPeriod(v: Invoice, c: Checkout, at: int) {
    && v.issue.None? && FullyPaid(v)
    && v.start.Some? && v.end.Some? && c.start == v.start && c.end == v.end
    && v.start.value <= at < v.end.value
  }

  /** An applied upgrade whose invoice was paid exactly as quoted, for the same period, and started by then. */
  predicate PaysUpgrade(v: Invoice, u: Upgrade, c: Checkout, at: int) {
    && u.applied && v.issue.None? && FullyPaid(v) && v.amountPaid == u.quoted
    && c.start == Some(u.start) && c.end == Some(u.end) && u.from <= at < u.end
  }

  /** A chain of invoices, each billing an upgrade of the next, down to an ordinary one. An upgrade that was
      never applied is passed over while the plan it would have replaced is still the plan in force. */
  ghost predicate CoverChain(b: Books, c: Checkout, plan: nat, matches: bool, at: int, path: seq<nat>)
    decreases |path|
  {
    && path != [] && Owned(b, c.id, path[0])
    && var u := UpgradeOf(b, c.id, path[0]);
       if |path| == 1 then u.None? && PaysPeriod(b.invoices[path[0]], c, at)
       else
         && u.Some? && u.value.source == path[1]
         && if u.value.applied
            then PaysUpgrade(b.invoices[path[0]], u.value, c, at) && CoverChain(b, c, u.value.sourcePlan, true, at, path[1..])
            else u.value.sourcePlan == plan && matches && CoverChain(b, c, plan, matches, at, path[1..])
  }

  ghost predicate Covered(b: Books, c: Checkout, plan: nat, matches: bool, at: int, id: nat, hops: nat) {
    exists path :: CoverChain(b, c, plan, matches, at, path) && path[0] == id && |path| <= hops + 1
  }

  // ---- What settled means ----

  /** A link that is settled: void if the upgrade it bills expired unapplied, else paid exactly as quoted. */
  predicate SettledLink(v: Invoice, u: Upgrade) {
    && v.issue.None?
    && if !u.applied && u.expired && v.status.Void? then true
       else FullyPaid(v) && u.applied && v.amountPaid == u.quoted
  }

  ghost predicate SettledPath(b: Books, path: seq<nat>)
    decreases |path|
  {
    && path != [] && path[0] in b.invoices && path[0] !in path[1..]
    && var v := b.invoices[path[0]];
       var u := UpgradeOf(b, v.checkout, path[0]);
       if |path| == 1 then u.None? && v.issue.None? && FullyPaid(v)
       else u.Some? && u.value.source == path[1] && SettledLink(v, u.value) && SettledPath(b, path[1..])
  }

  /** Settled without meeting any invoice of `seen`, and with room left in the bound. */
  ghost predicate SettledBeyond(b: Books, id: nat, seen: set<nat>) {
    exists path :: SettledPath(b, path) && path[0] == id && |path| + |seen| <= 16 && forall x <- path :: x !in seen
  }

  ghost predicate Settled(b: Books, id: nat) { SettledBeyond(b, id, {}) }

  /** A settled chain, link by link: different invoices, none under review, each billing an upgrade of the next that
      was applied and paid as quoted, or expired unapplied with its invoice void, down to an ordinary one paid in full. */
  ghost predicate SettledLinks(b: Books, path: seq<nat>) {
    && path != [] && (forall i, j :: 0 <= i < j < |path| ==> path[i] != path[j])
    && (forall k :: 0 <= k < |path| ==> path[k] in b.invoices && b.invoices[path[k]].issue.None?)
    && (forall k :: 0 <= k < |path| - 1 ==> SettledStep(b, path[k], path[k + 1]))
    && var last := path[|path| - 1];
       && (last in b.upgrades ==> b.upgrades[last].checkout != b.invoices[last].checkout)
       && b.invoices[last].status == Paid && b.invoices[last].paidAt.Some? && b.invoices[last].remaining == 0
  }

  ghost predicate SettledStep(b: Books, id: nat, next: nat)
    requires id in b.invoices
  {
    && id in b.upgrades && b.upgrades[id].checkout == b.invoices[id].checkout && b.upgrades[id].source == next
    && var v, u := b.invoices[id], b.upgrades[id];
       if u.applied then v.status == Paid && v.paidAt.Some? && v.remaining == 0 && v.amountPaid == u.quoted
       else u.expired && v.status == Void
  }

  lemma {:induction false} SettledPathIff(b: Books, path: seq<nat>)
    ensures SettledPath(b, path) <==> SettledLinks(b, path)
    decreases |path|
  {
    if |path| > 1 {
      var rest := path[1..];
      SettledPathIff(b, rest);
      if SettledLinks(b, path) {
        forall k | 0 <= k < |rest| - 1 ensures SettledStep(b, rest[k], rest[k + 1]) { assert SettledStep(b, path[k + 1], path[k + 2]); }
        assert SettledStep(b, path[0], path[1]);
      }
      if SettledPath(b, path) {
        forall k | 0 <= k < |path| - 1 ensures path[k] in b.invoices && SettledStep(b, path[k], path[k + 1]) {
          if k > 0 { assert SettledStep(b, rest[k - 1], rest[k]); }
        }
        forall k | 0 <= k < |path| ensures path[k] in b.invoices && b.invoices[path[k]].issue.None? {
          if k > 0 { assert rest[k - 1] in b.invoices; }
        }
        forall i, j | 0 <= i < j < |path| ensures path[i] != path[j] {
          if i == 0 { assert path[j] == rest[j - 1]; } else { assert rest[i - 1] != rest[j - 1]; }
        }
      }
    }
  }

  lemma SettledUnfold(b: Books, id: nat, seen: set<nat>)
    requires id in b.invoices && id !in seen && |seen| < MAX_HOPS
    ensures var u := UpgradeOf(b, b.invoices[id].checkout, id);
            SettledBeyond(b, id, seen) <==>
            if u.None? then b.invoices[id].issue.None? && FullyPaid(b.invoices[id])
            else SettledLink(b.invoices[id], u.value) && SettledBeyond(b, u.value.source, seen + {id})
  {
    var u := UpgradeOf(b, b.invoices[id].checkout, id);
    if SettledBeyond(b, id, seen) {
      var path :| SettledPath(b, path) && path[0] == id && |path| + |seen| <= MAX_HOPS && forall x <- path :: x !in seen;
      if u.Some? {
        assert SettledPath(b, path[1..]) && path[1..][0] == u.value.source;
      }
    }
    if u.None? && b.invoices[id].issue.None? && FullyPaid(b.invoices[id]) {
      assert SettledPath(b, [id]);
    }
    if u.Some? && SettledLink(b.invoices[id], u.value) && SettledBeyond(b, u.value.source, seen + {id}) {
      var rest :| SettledPath(b, rest) && rest[0] == u.value.source && |rest| + |seen + {id}| <= MAX_HOPS
                  && forall x <- rest :: x !in seen + {id};
      var path := [id] + rest;
      assert path[1..] == rest;
      assert SettledPath(b, path);
    }
  }

  /** Cycle-safe and bounded: true exactly when a settled chain of at most 16 different invoices exists. */
  method SettledChain(b: Books, id: nat, seen: set<nat>) returns (settled: bool)
    ensures settled <==> SettledBeyond(b, id, seen)
    decreases MAX_HOPS - |seen|
  {
    if id !in b.invoices || id in seen || |seen| >= MAX_HOPS || b.invoices[id].issue.Some? { return false; }
    SettledUnfold(b, id, seen);
    var v := b.invoices[id];
    var u := UpgradeOf(b, v.checkout, id);
    if u.Some? && !u.value.applied && u.value.expired && v.status.Void? {
      settled := SettledChain(b, u.value.source, seen + {id});
      return;
    }
    if !FullyPaid(v) { return false; }
    if u.None? { return true; }
    if !u.value.applied || v.amountPaid != u.value.quoted { return false; }
    settled := SettledChain(b, u.value.source, seen + {id});
  }

  // ---- Assessment ----

  lemma CoverUnfold(b: Books, c: Checkout, plan: nat, matches: bool, at: int, id: nat, hops: nat)
    requires Owned(b, c.id, id)
    ensures var u := UpgradeOf(b, c.id, id);
            Covered(b, c, plan, matches, at, id, hops) <==>
            if u.None? then PaysPeriod(b.invoices[id], c, at)
            else
              && hops > 0
              && if u.value.applied
                 then PaysUpgrade(b.invoices[id], u.value, c, at)
                      && Covered(b, c, u.value.sourcePlan, true, at, u.value.source, hops - 1)
                 else u.value.sourcePlan == plan && matches && Covered(b, c, plan, matches, at, u.value.source, hops - 1)
  {
    var u := UpgradeOf(b, c.id, id);
    if Covered(b, c, plan, matches, at, id, hops) {
      var path :| CoverChain(b, c, plan, matches, at, path) && path[0] == id && |path| <= hops + 1;
      if u.Some? { assert path[1..][0] == u.value.source; }
    }
    if u.None? {
      if PaysPeriod(b.invoices[id], c, at) { assert CoverChain(b, c, plan, matches, at, [id]); }
    } else if hops > 0 {
      var next, ok := if u.value.applied then u.value.sourcePlan else plan, if u.value.applied then true else matches;
      if Covered(b, c, next, ok, at, u.value.source, hops - 1)
         && (if u.value.applied then PaysUpgrade(b.invoices[id], u.value, c, at) else u.value.sourcePlan == plan && matches) {
        var rest :| CoverChain(b, c, next, ok, at, rest) && rest[0] == u.value.source && |rest| <= hops;
        var path := [id] + rest;
        assert path[1..] == rest;
        assert CoverChain(b, c, plan, matches, at, path);
      }
    }
  }

  /** The invoice bills an applied upgrade whose period ended when the checkout's began. */
  predicate EndsBefore(b: Books, c: Checkout, id: nat) {
    id in b.upgrades && b.upgrades[id].checkout == c.id && b.upgrades[id].applied && c.start == Some(b.upgrades[id].end)
  }

  /** The latest applied upgrade of the period that ended when the checkout's period began. */
  function PriorUpgrade(b: Books, c: Checkout, ids: seq<nat>): (k: Option<nat>)
    ensures k.Some? ==> exists i :: 0 <= i < |ids| && ids[i] == k.value && EndsBefore(b, c, ids[i])
                                    && forall j :: 0 <= j < i ==> !EndsBefore(b, c, ids[j])
    ensures k.None? ==> forall i :: 0 <= i < |ids| ==> !EndsBefore(b, c, ids[i])
  {
    if ids == [] then None
    else
      var u := UpgradeOf(b, c.id, ids[0]);
      if u.Some? && u.value.applied && c.start == Some(u.value.end) then Some(ids[0]) else PriorUpgrade(b, c, ids[1..])
  }

  predicate IsCandidate(b: Books, c: Checkout, current: nat, id: nat) {
    && id != current && Owned(b, c.id, id)
    && var v := b.invoices[id];
       && v.issue.None? && FullyPaid(v) && v.start.Some? && v.end.Some? && c.start.Some?
       && v.start.value < c.start.value && v.end == c.start
  }

  function Candidates(b: Books, c: Checkout, current: nat, ids: seq<nat>): seq<nat> {
    if ids == [] then []
    else (if IsCandidate(b, c, current, ids[0]) then [ids[0]] else []) + Candidates(b, c, current, ids[1..])
  }

  /** A candidate is an unreviewed invoice of the checkout, paid in full, for a period that ended when the present
      one began; all of them are listed, in the given order. */
  lemma {:induction false} CandidatesAre(b: Books, c: Checkout, current: nat, ids: seq<nat>, id: nat)
    ensures id in Candidates(b, c, current, ids) <==>
              && id in ids && id != current && id in b.invoices && c.start.Some?
              && var v := b.invoices[id];
                 && v.checkout == c.id && v.issue.None? && v.status == Paid && v.paidAt.Some? && v.remaining == 0
                 && v.start.Some? && v.start.value < c.start.value && v.end == c.start
  {
    if ids != [] { CandidatesAre(b, c, current, ids[1..], id); }
  }

  lemma {:induction false} CandidatesInOrder(b: Books, c: Checkout, current: nat, ids: seq<nat>, n: nat)
    requires n <= |ids|
    ensures Candidates(b, c, current, ids) == Candidates(b, c, current, ids[..n]) + Candidates(b, c, current, ids[n..])
  {
    if n == 0 {
      assert ids[..0] == [] && ids[0..] == ids;
    } else {
      CandidatesInOrder(b, c, current, ids[1..], n - 1);
      assert ids[..n][0] == ids[0] && ids[..n][1..] == ids[1..][..n - 1] && ids[n..] == ids[1..][n - 1..];
    }
  }

  /** A candidate is considered unless sixteen newer ones are. */
  lemma NewestAreConsidered(b: Books, c: Checkout, current: nat, n: nat)
    requires n < |b.newest| && b.newest[n] in Candidates(b, c, current, b.newest)
    ensures b.newest[n] in Considered(b, c, current)
            || Considered(b, c, current) <= Candidates(b, c, current, b.newest[..n])
    ensures b.newest[n] !in Considered(b, c, current) ==> |Considered(b, c, current)| == 16
    ensures |Considered(b, c, current)| <= 16 && forall id <- Considered(b, c, current) :: id in Candidates(b, c, current, b.newest)
  {
    var id := b.newest[n];
    var newer := Candidates(b, c, current, b.newest[..n]);
    CandidatesInOrder(b, c, current, b.newest, n);
    CandidatesAre(b, c, current, b.newest, id);
    assert b.newest[n..][0] == id;
    if |newer| < MAX_CANDIDATES { assert Considered(b, c, current)[|newer|] == id; }
  }

  function Considered(b: Books, c: Checkout, current: nat): seq<nat> {
    var all := Candidates(b, c, current, b.newest);
    if |all| <= MAX_CANDIDATES then all else all[..MAX_CANDIDATES]
  }

  /** The previous period is settled: its latest upgrade if there was one, else one of its newest invoices. */
  ghost predicate PriorSettled(b: Books, c: Checkout, current: nat) {
    var prior := PriorUpgrade(b, c, b.latestUpgrades);
    if prior.Some? then Settled(b, prior.value)
    else exists id <- Considered(b, c, current) :: Settled(b, id)
  }

  method HasSettledPrior(b: Books, c: Checkout, current: nat) returns (settled: bool)
    ensures settled <==> PriorSettled(b, c, current)
    ensures forall i :: 0 <= i < |b.latestUpgrades| && EndsBefore(b, c, b.latestUpgrades[i])
                        && (forall j :: 0 <= j < i ==> !EndsBefore(b, c, b.latestUpgrades[j])) ==>
              (settled <==> Settled(b, b.latestUpgrades[i]))
    ensures (forall id <- b.latestUpgrades :: !EndsBefore(b, c, id)) ==>
              (settled <==> exists id <- Considered(b, c, current) :: Settled(b, id))
  {
    hide SettledBeyond;
    var prior := PriorUpgrade(b, c, b.latestUpgrades);
    if prior.Some? {
      settled := SettledChain(b, prior.value, {});
      return;
    }
    var ids := Considered(b, c, current);
    for i := 0 to |ids|
      invariant forall n :: 0 <= n < i ==> !Settled(b, ids[n])
    {
      settled := SettledChain(b, ids[i], {});
      if settled {
        assert ids[i] in Considered(b, c, current);
        return;
      }
    }
    settled := false;
  }

  function Min(a: int, b: int): int { if b < a then b else a }

  /** An unpaid renewal that was already attempted may borrow time from a settled previous period, unless it
      is the first charge of a higher tier. */
  ghost predicate GraceGranted(b: Books, c: Checkout, plan: nat, id: nat, graceDays: nat, until: int) {
    && Owned(b, c.id, id) && UpgradeOf(b, c.id, id).None?
    && var v := b.invoices[id];
       && v.issue.None? && v.status.Open? && v.attempts > 0 && (v.reason.Cycle? || v.reason.Update?)
       && v.start.Some? && v.end.Some? && c.start == v.start && c.end == v.end
       && (plan, v.start.value) !in b.tierRaises
       && PriorSettled(b, c, id)
       && until == (if c.cancels then Min(v.start.value + graceDays * DAY, c.end.value) else v.start.value + graceDays * DAY)
  }

  /** The ordinary invoice reached by passing over upgrades that were never applied. */
  ghost function BypassedTo(b: Books, c: Checkout, plan: nat, matches: bool, id: nat, hops: nat): Option<nat>
    decreases hops
  {
    if !Owned(b, c.id, id) then None
    else
      var u := UpgradeOf(b, c.id, id);
      if u.None? then Some(id)
      else if hops > 0 && !u.value.applied && u.value.sourcePlan == plan && matches
      then BypassedTo(b, c, plan, matches, u.value.source, hops - 1)
      else None
  }

  /** Upgrades that were never applied, all from the plan in force, down to an ordinary invoice. */
  ghost predicate PassedOver(b: Books, c: Checkout, plan: nat, matches: bool, path: seq<nat>) {
    && path != [] && (|path| > 1 ==> matches)
    && (forall k :: 0 <= k < |path| ==> path[k] in b.invoices && b.invoices[path[k]].checkout == c.id)
    && (forall k :: 0 <= k < |path| - 1 ==>
          path[k] in b.upgrades && b.upgrades[path[k]].checkout == c.id && b.upgrades[path[k]].source == path[k + 1]
          && !b.upgrades[path[k]].applied && b.upgrades[path[k]].sourcePlan == plan)
    && (path[|path| - 1] in b.upgrades ==> b.upgrades[path[|path| - 1]].checkout != c.id)
  }

  lemma {:induction false} PassingOverLeadsTo(b: Books, c: Checkout, plan: nat, matches: bool, path: seq<nat>, hops: nat)
    requires PassedOver(b, c, plan, matches, path) && |path| <= hops + 1
    ensures BypassedTo(b, c, plan, matches, path[0], hops) == Some(path[|path| - 1])
    decreases |path|
  {
    if |path| > 1 { PassingOverLeadsTo(b, c, plan, matches, path[1..], hops - 1); }
  }

  lemma {:induction false} ReachedByPassingOver(b: Books, c: Checkout, plan: nat, matches: bool, id: nat, hops: nat)
    returns (path: seq<nat>)
    requires BypassedTo(b, c, plan, matches, id, hops).Some?
    ensures PassedOver(b, c, plan, matches, path) && |path| <= hops + 1 && path[0] == id
    ensures BypassedTo(b, c, plan, matches, id, hops) == Some(path[|path| - 1])
    decreases hops
  {
    path := [id];
    if UpgradeOf(b, c.id, id).Some? {
      var rest := ReachedByPassingOver(b, c, plan, matches, b.upgrades[id].source, hops - 1);
      path := [id] + rest;
    }
  }

  /** Assess the evidence that starts at one invoice. */
  method Assess(b: Books, c: Checkout, plan: nat, matches: bool, at: int, graceDays: nat, id: nat, depth: nat)
    returns (r: Assessment)
    requires depth <= MAX_HOPS
    ensures r.covered <==> Covered(b, c, plan, matches, at, id, MAX_HOPS - depth)
    ensures r.covered ==> r.issue.None? && r.graceUntil.None? && r.status == Some(Paid)
    ensures r.covered ==> c.end.Some? && r.paidThrough == c.end && at < c.end.value
    ensures r.graceUntil.Some? ==> r.issue.None?
    ensures r.paidThrough.Some? ==> r.issue.None? && r.status == Some(Paid) && r.paidThrough == c.end
    ensures !Owned(b, c.id, id) ==> r.issue == Some(NoInvoice)
    ensures var j := BypassedTo(b, c, plan, matches, id, MAX_HOPS - depth);
            forall until :: r.graceUntil == Some(until) <==> j.Some? && GraceGranted(b, c, plan, j.value, graceDays, until)
    decreases MAX_HOPS - depth
  {
    var none := Assessment(if id in b.invoices then Some(b.invoices[id].status) else None, None, None, false, Some(NoInvoice));
    if !Owned(b, c.id, id) { return none; }
    CoverUnfold(b, c, plan, matches, at, id, MAX_HOPS - depth);
    var v := b.invoices[id];
    var upgrade := UpgradeOf(b, c.id, id);
    if upgrade.None? {
      r := AssessOrdinary(b, c, plan, at, graceDays, id);
      return;
    }
    var u := upgrade.value;
    if depth >= MAX_HOPS { return none.(issue := Some(ChainTooLong)); }
    if !u.applied {
      if plan == u.sourcePlan && matches {
        r := Assess(b, c, plan, matches, at, graceDays, u.source, depth + 1);
        return;
      }
      return none.(issue := Some(UpgradeUnverified));
    }
    if v.issue.Some? || !FullyPaid(v) || v.amountPaid != u.quoted {
      return none.(issue := Some(if v.issue.Some? then Reviewed(v.issue.value) else UpgradeUnsettled));
    }
    if c.start != Some(u.start) || c.end != Some(u.end) { return none.(issue := Some(UpgradeOtherPeriod)); }
    var base := Assess(b, c, u.sourcePlan, true, at, graceDays, u.source, depth + 1);
    if !base.covered || base.issue.Some? { return none.(issue := if base.issue.Some? then base.issue else Some(SourceNotCovered)); }
    r := Assessment(Some(Paid), Some(u.end), None, u.from <= at < u.end, None);
  }

  method AssessOrdinary(b: Books, c: Checkout, plan: nat, at: int, graceDays: nat, id: nat) returns (r: Assessment)
    requires Owned(b, c.id, id) && UpgradeOf(b, c.id, id).None?
    ensures r.covered <==> PaysPeriod(b.invoices[id], c, at)
    ensures r.covered <==>
              var v := b.invoices[id];
              && v.issue.None? && v.status == Paid && v.paidAt.Some? && v.remaining == 0
              && v.start.Some? && v.end.Some? && c.start == v.start && c.end == v.end && v.start.value <= at < v.end.value
    ensures r.covered ==> r.issue.None? && r.graceUntil.None? && r.status == Some(Paid) && r.paidThrough == c.end
    ensures r.graceUntil.Some? ==> r.issue.None?
    ensures forall until :: r.graceUntil == Some(until) <==> GraceGranted(b, c, plan, id, graceDays, until)
    ensures r.graceUntil.Some? <==>
              var v := b.invoices[id];
              && v.issue.None? && v.status == Open && v.attempts > 0 && (v.reason == Cycle || v.reason == Update)
              && v.start.Some? && v.end.Some? && c.start == v.start && c.end == v.end
              && (plan, v.start.value) !in b.tierRaises && PriorSettled(b, c, id)
    ensures r.graceUntil.Some? ==>
              var end := b.invoices[id].start.value + graceDays * 86_400;
              r.graceUntil.value == if c.cancels && c.end.value < end then c.end.value else end
    ensures r.status == Some(b.invoices[id].status)
    ensures var v := b.invoices[id];
            && (r.issue.None? <==> v.issue.None? && v.start.Some? && v.end.Some? && c.start == v.start && c.end == v.end)
            && r.paidThrough == if r.issue.None? && v.status == Paid && v.paidAt.Some? && v.remaining == 0 then v.end else None
  {
    var v := b.invoices[id];
    r := Assessment(Some(v.status), None, None, false, if v.issue.Some? then Some(Reviewed(v.issue.value)) else None);
    if v.issue.Some? || c.start.None? || c.end.None? || v.start.None? || v.end.None? {
      return r.(issue := Some(if v.issue.Some? then Reviewed(v.issue.value) else PeriodUnverified));
    }
    if v.start != c.start || v.end != c.end { return r.(issue := Some(OtherPeriod)); }
    if FullyPaid(v) {
      r := r.(covered := v.start.value <= at < v.end.value, paidThrough := v.end);
    } else if v.status.Open? && v.attempts > 0 && (v.reason.Cycle? || v.reason.Update?) {
      if (plan, v.start.value) in b.tierRaises { return; }
      var settled := HasSettledPrior(b, c, id);
      if settled {
        var end := v.start.value + graceDays * DAY;
        if c.cancels { end := Min(end, c.end.value); }
        r := r.(graceUntil := Some(end));
      }
    }
  }

  /** Assessment of a checkout starts at its latest invoice. */
  method AssessCheckout(b: Books, c: Checkout, plan: nat, matches: bool, at: int, graceDays: nat) returns (r: Assessment)
    ensures r.covered <==> c.latest.Some? && Covered(b, c, plan, matches, at, c.latest.value, 16)
    ensures !(r.covered && r.graceUntil.Some?)
    ensures r.covered ==> r.issue.None? && c.end.Some? && r.paidThrough == c.end && at < c.end.value
  {
    if c.latest.None? { return Assessment(None, None, None, false, Some(NoInvoice)); }
    r := Assess(b, c, plan, matches, at, graceDays, c.latest.value, 0);
  }

  /** The invoice billed the upgrade at its quoted price, was paid in full, and is for the checkout's period. */
  predicate PaidAsQuoted(v: Invoice, u: Upgrade, c: Checkout, at: int) {
    && v.issue.None? && v.status == Paid && v.paidAt.Some? && v.remaining == 0 && v.amountPaid == u.quoted
    && c.start == Some(u.start) && c.end == Some(u.end) && u.from <= at < u.end
  }

  /** An ordinary invoice of the checkout was paid in full for its period. */
  predicate PaidInFull(b: Books, id: nat, c: Checkout, at: int)
    requires id in b.invoices
  {
    var v := b.invoices[id];
    && v.checkout == c.id && (id in b.upgrades ==> b.upgrades[id].checkout != c.id)
    && v.issue.None? && v.status == Paid && v.paidAt.Some? && v.remaining == 0
    && v.start.Some? && v.end.Some? && c.start == v.start && c.end == v.end && v.start.value <= at < v.end.value
  }

  /** And the other way round: a chain of applied upgrades that were all paid as quoted, down to an ordinary invoice
      paid in full, covers the checkout; so does one that is reached by passing over upgrades never applied, all from
      the plan in force. */
  lemma {:induction false} PaymentCovers(b: Books, c: Checkout, plan: nat, matches: bool, at: int, path: seq<nat>, passed: nat)
    requires path != [] && passed < |path| && (passed > 0 ==> matches)
    requires forall k :: 0 <= k < |path| - 1 ==>
               && path[k] in b.invoices && b.invoices[path[k]].checkout == c.id
               && path[k] in b.upgrades && b.upgrades[path[k]].checkout == c.id && b.upgrades[path[k]].source == path[k + 1]
               && if k < passed then !b.upgrades[path[k]].applied && b.upgrades[path[k]].sourcePlan == plan
                  else b.upgrades[path[k]].applied && PaidAsQuoted(b.invoices[path[k]], b.upgrades[path[k]], c, at)
    requires path[|path| - 1] in b.invoices && PaidInFull(b, path[|path| - 1], c, at)
    ensures Covered(b, c, plan, matches, at, path[0], |path| - 1)
    ensures CoverChain(b, c, plan, matches, at, path)
    decreases |path|
  {
    if |path| > 1 {
      var rest := path[1..];
      if passed > 0 { PaymentCovers(b, c, plan, matches, at, rest, passed - 1); }
      else { PaymentCovers(b, c, b.upgrades[path[0]].sourcePlan, true, at, rest, 0); }
    }
  }

  /** What coverage rests on, link by link: every applied upgrade on the way was paid exactly as quoted for
      the checkout's own period, and the chain ends in an ordinary, fully paid invoice of that period. */
  lemma {:induction false} CoverageRestsOnPayment(b: Books, c: Checkout, plan: nat, matches: bool, at: int, path: seq<nat>)
    requires CoverChain(b, c, plan, matches, at, path)
    ensures forall k :: 0 <= k < |path| - 1 ==>
              && path[k] in b.invoices && b.invoices[path[k]].checkout == c.id
              && path[k] in b.upgrades && b.upgrades[path[k]].checkout == c.id && b.upgrades[path[k]].source == path[k + 1]
              && (b.upgrades[path[k]].applied ==> PaidAsQuoted(b.invoices[path[k]], b.upgrades[path[k]], c, at))
    ensures path[|path| - 1] in b.invoices && PaidInFull(b, path[|path| - 1], c, at)
    decreases |path|
  {
    if |path| > 1 {
      var u := UpgradeOf(b, c.id, path[0]).value;
      CoverageRestsOnPayment(b, c, if u.applied then u.sourcePlan else plan, if u.applied then true else matches, at, path[1..]);
    }
  }

  // ---- Refreshing the evidence ----

  /** All invoices the chain of upgrades leads through, whatever their state. */
  ghost predicate FullChain(b: Books, checkout: nat, path: seq<nat>)
    decreases |path|
  {
    && path != [] && path[0] !in path[1..]
    && var u := UpgradeOf(b, checkout, path[0]);
       if |path| == 1 then u.None? else u.Some? && u.value.source == path[1] && FullChain(b, checkout, path[1..])
  }

  function Reversed(s: seq<nat>): seq<nat> { if s == [] then [] else Reversed(s[1..]) + [s[0]] }

  ghost predicate ChainBeyond(b: Books, checkout: nat, id: nat, seen: set<nat>, path: seq<nat>) {
    FullChain(b, checkout, path) && path[0] == id && |path| + |seen| <= 16 && forall x <- path :: x !in seen
  }

  /** A chain is what it says: different invoices, each billing an upgrade of the next, up to the first one that bills
      none; and read backwards it is the same, oldest first. */
  lemma {:induction false} FullChainIff(b: Books, checkout: nat, path: seq<nat>)
    ensures FullChain(b, checkout, path) <==>
              && path != [] && (forall i, j :: 0 <= i < j < |path| ==> path[i] != path[j])
              && (forall k :: 0 <= k < |path| - 1 ==>
                    path[k] in b.upgrades && b.upgrades[path[k]].checkout == checkout && b.upgrades[path[k]].source == path[k + 1])
              && (path[|path| - 1] in b.upgrades ==> b.upgrades[path[|path| - 1]].checkout != checkout)
    ensures |Reversed(path)| == |path| && forall k :: 0 <= k < |path| ==> Reversed(path)[k] == path[|path| - 1 - k]
    decreases |path|
  {
    if path != [] {
      var rest := path[1..];
      FullChainIff(b, checkout, rest);
      if FullChain(b, checkout, path) {
        forall i, j | 0 <= i < j < |path| ensures path[i] != path[j] {
          if i == 0 { assert path[j] == rest[j - 1]; } else { assert rest[i - 1] != rest[j - 1]; }
        }
      }
    }
  }

  lemma ChainTail(b: Books, checkout: nat, id: nat, seen: set<nat>, path: seq<nat>)
    requires ChainBeyond(b, checkout, id, seen, path) && UpgradeOf(b, checkout, id).Some?
    ensures ChainBeyond(b, checkout, UpgradeOf(b, checkout, id).value.source, seen + {id}, path[1..])
  {
  }

  lemma NoChainEither(b: Books, checkout: nat, id: nat, seen: set<nat>)
    requires UpgradeOf(b, checkout, id).Some?
    requires forall path :: !ChainBeyond(b, checkout, UpgradeOf(b, checkout, id).value.source, seen + {id}, path)
    ensures forall path :: !ChainBeyond(b, checkout, id, seen, path)
  {
    forall path ensures !ChainBeyond(b, checkout, id, seen, path) {
      if ChainBeyond(b, checkout, id, seen, path) { ChainTail(b, checkout, id, seen, path); }
    }
  }

  /** Refresh a chain, oldest invoice first; refused exactly when it is cyclic or longer than 16 invoices. */
  method RefreshEvidence(b: Books, checkout: nat, id: nat, seen: set<nat>) returns (observed: Option<seq<nat>>)
    ensures observed.Some? ==> exists path :: ChainBeyond(b, checkout, id, seen, path) && observed.value == Reversed(path)
    ensures observed.None? ==> forall path :: !ChainBeyond(b, checkout, id, seen, path)
    decreases MAX_HOPS - |seen|
  {
    if id in seen || |seen| >= MAX_HOPS { return None; }
    var u := UpgradeOf(b, checkout, id);
    if u.None? {
      assert ChainBeyond(b, checkout, id, seen, [id]);
      assert Reversed([id]) == [id];
      return Some([id]);
    }
    var earlier := RefreshEvidence(b, checkout, u.value.source, seen + {id});
    if earlier.None? {
      NoChainEither(b, checkout, id, seen);
      return None;
    }
    ghost var rest :| ChainBeyond(b, checkout, u.value.source, seen + {id}, rest) && earlier.value == Reversed(rest);
    assert ([id] + rest)[1..] == rest;
    assert ChainBeyond(b, checkout, id, seen, [id] + rest);
    observed := Some(earlier.value + [id]);
  }

  lemma {:induction false} CoverFollowsChain(b: Books, c: Checkout, plan: nat, matches: bool, at: int, path: seq<nat>, full: seq<nat>)
    requires CoverChain(b, c, plan, matches, at, path) && FullChain(b, c.id, full) && path[0] == full[0]
    ensures path == full
    decreases |path|
  {
    if |path| > 1 {
      var u := UpgradeOf(b, c.id, path[0]).value;
      CoverFollowsChain(b, c, if u.applied then u.sourcePlan else plan, if u.applied then true else matches, at, path[1..], full[1..]);
      assert path == [path[0]] + path[1..] && full == [full[0]] + full[1..];
    }
  }

  /** Once the evidence has been refreshed, the bound on hops never decides: a longer bound would cover
      nothing more. */
  lemma RefreshedChainsAreShortEnough(b: Books, c: Checkout, plan: nat, matches: bool, at: int, id: nat, hops: nat, full: seq<nat>)
    requires ChainBeyond(b, c.id, id, {}, full) && MAX_HOPS <= hops
    ensures Covered(b, c, plan, matches, at, id, hops) <==> Covered(b, c, plan, matches, at, id, MAX_HOPS)
  {
    if Covered(b, c, plan, matches, at, id, hops) {
      var path :| CoverChain(b, c, plan, matches, at, path) && path[0] == id && |path| <= hops + 1;
      CoverFollowsChain(b, c, plan, matches, at, path, full);
    }
    if Covered(b, c, plan, matches, at, id, MAX_HOPS) {
      var path :| CoverChain(b, c, plan, matches, at, path) && path[0] == id && |path| <= MAX_HOPS + 1;
      assert |path| <= hops + 1;
    }
  }
}
