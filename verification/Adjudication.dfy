/** Human review of a benchmark: append-only case histories, dispute rules, and numbered publications. */
module Adjudication {
  import opened Prelude

  datatype Verdict = Supported | Contradicted | Insufficient

  datatype State = Draft | Approved | Excluded | Disputed

  datatype Actor = Actor(id: nat, superAdmin: bool)

  /** What an author submits. */
  datatype Write = Write(expected: nat, state: State, verdict: Option<Verdict>, evidence: seq<nat>, rationale: string,
                         humanReviewed: bool, permissionsChecked: bool, resolve: bool)

  /** What is saved. The author's role and intention are those of the moment of saving. */
  datatype Record = Record(version: nat, state: State, verdict: Option<Verdict>, author: Actor, resolving: bool)

  datatype Refusal = Changed | DuplicateEvidence | ForeignEvidence | UnexplainedDispute | NotSuperAdmin | NeedsResolution | Unattested

  predicate Final(s: State) { s.Approved? || s.Excluded? }

  predicate Blank(text: string) { forall c <- text :: c in {' ', '\t', '\n', '\r'} }

  /** A final decision is explained, attested and, if it supports or contradicts, backed by evidence. */
  predicate Attested(w: Write) {
    Final(w.state) ==>
      && !Blank(w.rationale) && w.humanReviewed && w.permissionsChecked
      && (w.state.Approved? ==> w.verdict.Some? && (!w.verdict.value.Insufficient? ==> w.evidence != []))
  }

  predicate Agree(s: State, v: Option<Verdict>, t: State, w: Option<Verdict>) { s == t && (s.Approved? ==> v == w) }

  /** Index of the most recent final record, if any. */
  function LatestFinal(h: seq<Record>): (k: Option<nat>)
    ensures k.Some? ==> k.value < |h| && Final(h[k.value].state) && forall i :: k.value < i < |h| ==> !Final(h[i].state)
    ensures k.None? ==> forall i :: 0 <= i < |h| ==> !Final(h[i].state)
    decreases |h|
  {
    if h == [] then None
    else if Final(h[|h| - 1].state) then Some(|h| - 1)
    else LatestFinal(h[..|h| - 1])
  }

  predicate InDispute(h: seq<Record>) { h != [] && h[|h| - 1].state.Disputed? }

  /** The state a submission ends up in: a disagreement with another author becomes a dispute. */
  function SavedState(h: seq<Record>, w: Write, actor: Actor): State {
    var k := LatestFinal(h);
    if k.Some? && Final(w.state) && !InDispute(h)
       && h[k.value].author.id != actor.id && !Agree(h[k.value].state, h[k.value].verdict, w.state, w.verdict)
    then Disputed else w.state
  }

  function Refused(h: seq<Record>, passages: set<nat>, w: Write, actor: Actor): Option<Refusal> {
    if w.expected != |h| then Some(Changed)
    else if !Distinct(w.evidence) then Some(DuplicateEvidence)
    else if !(forall e <- w.evidence :: e in passages) then Some(ForeignEvidence)
    else if w.state.Disputed? && Blank(w.rationale) then Some(UnexplainedDispute)
    else if w.resolve && !actor.superAdmin then Some(NotSuperAdmin)
    else if InDispute(h) && !w.state.Disputed? && (!actor.superAdmin || !w.resolve || !Final(w.state)) then Some(NeedsResolution)
    else if !Attested(w) then Some(Unattested)
    else None
  }

  function Append(h: seq<Record>, passages: set<nat>, w: Write, actor: Actor): seq<Record> {
    if Refused(h, passages, w, actor).Some? then h
    else h + [Record(|h| + 1, SavedState(h, w, actor), w.verdict, actor, w.resolve)]
  }

  // ---- Histories of one case ----

  /** The most recent final record before position `k`. */
  ghost predicate FinalBefore(h: seq<Record>, j: nat, k: nat)
    requires k <= |h|
  {
    j < k && Final(h[j].state) && forall i :: j < i < k ==> !Final(h[i].state)
  }

  /** A final decision, made outside a dispute, that differs from the most recent one of another author. */
  ghost predicate Overturns(h: seq<Record>, w: Write, actor: Actor) {
    && (w.state == Approved || w.state == Excluded) && (h == [] || h[|h| - 1].state != Disputed)
    && exists k :: 0 <= k < |h| && FinalBefore(h, k, |h|) && h[k].author.id != actor.id
         && (h[k].state != w.state || (w.state == Approved && h[k].verdict != w.verdict))
  }

  lemma DisputedIff(h: seq<Record>, w: Write, actor: Actor)
    ensures SavedState(h, w, actor) == if Overturns(h, w, actor) then Disputed else w.state
  {
    var k := LatestFinal(h);
    if k.Some? { assert FinalBefore(h, k.value, |h|); }
  }

  /** The review was made against the current version, its evidence is distinct and from the case, a dispute is
      explained and ended only by a super-admin's final resolution, and a final decision is explained, attested and, if
      it supports or contradicts, backed by evidence. */
  predicate Acceptable(h: seq<Record>, passages: set<nat>, w: Write, actor: Actor) {
    && w.expected == |h|
    && (forall i, j :: 0 <= i < j < |w.evidence| ==> w.evidence[i] != w.evidence[j])
    && (forall e <- w.evidence :: e in passages)
    && (w.state == Disputed ==> !Blank(w.rationale))
    && (w.resolve ==> actor.superAdmin)
    && (h != [] && h[|h| - 1].state == Disputed && w.state != Disputed ==>
          actor.superAdmin && w.resolve && (w.state == Approved || w.state == Excluded))
    && (w.state == Approved || w.state == Excluded ==> !Blank(w.rationale) && w.humanReviewed && w.permissionsChecked)
    && (w.state == Approved ==> w.verdict.Some? && (w.verdict != Some(Insufficient) ==> w.evidence != []))
  }

  /** Exactly that is accepted, whatever is asked first. */
  lemma AcceptedIff(h: seq<Record>, passages: set<nat>, w: Write, actor: Actor)
    ensures Refused(h, passages, w, actor).None? <==> Acceptable(h, passages, w, actor)
  {
  }

  /** What an accepted review adds to its case. */
  lemma AppendedIs(h: seq<Record>, passages: set<nat>, w: Write, actor: Actor)
    requires Refused(h, passages, w, actor).None?
    ensures Append(h, passages, w, actor) ==
              h + [Record(|h| + 1, if Overturns(h, w, actor) then Disputed else w.state, w.verdict, actor, w.resolve)]
  {
    DisputedIff(h, w, actor);
  }

  /** What adjudication means for one record of a history. */
  ghost predicate RecordOk(h: seq<Record>, k: nat)
    requires k < |h|
  {
    && h[k].version == k + 1
    && (h[k].state.Approved? ==> h[k].verdict.Some?)
    && (h[k].resolving ==> h[k].author.superAdmin)
    && (k > 0 && h[k - 1].state.Disputed? && !h[k].state.Disputed? ==>
          Final(h[k].state) && h[k].author.superAdmin && h[k].resolving)
    && (Final(h[k].state) && !(k > 0 && h[k - 1].state.Disputed?) ==>
          forall j :: 0 <= j < k && FinalBefore(h, j, k) ==>
            h[j].author.id == h[k].author.id || Agree(h[j].state, h[j].verdict, h[k].state, h[k].verdict))
  }

  ghost predicate Adjudicated(h: seq<Record>) {
    forall k :: 0 <= k < |h| ==> RecordOk(h, k)
  }

  lemma EarlierRecordsStay(h: seq<Record>, r: Record, k: nat)
    requires k < |h| && RecordOk(h, k)
    ensures RecordOk(h + [r], k)
  {
    var g := h + [r];
    forall j | 0 <= j < k && FinalBefore(g, j, k) ensures FinalBefore(h, j, k) {
      assert forall i :: j < i < k ==> g[i] == h[i];
    }
  }

  lemma AppendKeepsAdjudication(h: seq<Record>, passages: set<nat>, w: Write, actor: Actor)
    requires Adjudicated(h)
    ensures Adjudicated(Append(h, passages, w, actor))
    ensures h <= Append(h, passages, w, actor)
  {
    var g := Append(h, passages, w, actor);
    if g != h {
      var n := |h|;
      forall k | 0 <= k < n ensures RecordOk(g, k) { EarlierRecordsStay(h, g[n], k); }
      forall j | 0 <= j < n && FinalBefore(g, j, n) ensures LatestFinal(h) == Some(j) {
        assert forall i :: j < i < n ==> g[i] == h[i];
      }
    }
  }

  datatype Submission = Submission(write: Write, actor: Actor)

  function Submitted(h: seq<Record>, passages: set<nat>, ss: seq<Submission>): seq<Record>
    decreases |ss|
  {
    if ss == [] then h else Submitted(Append(h, passages, ss[0].write, ss[0].actor), passages, ss[1..])
  }

  /** Adjudication cannot be bypassed: in every history, whatever is submitted by whom and whatever drafts lie
      between, disputes end only by a super-admin's explicit final decision and every other final record
      agrees with the most recent earlier one or has its author. */
  lemma {:induction false} AdjudicationHolds(h: seq<Record>, passages: set<nat>, ss: seq<Submission>)
    requires Adjudicated(h)
    ensures Adjudicated(Submitted(h, passages, ss)) && h <= Submitted(h, passages, ss)
    decreases |ss|
  {
    if ss != [] {
      AppendKeepsAdjudication(h, passages, ss[0].write, ss[0].actor);
      AdjudicationHolds(Append(h, passages, ss[0].write, ss[0].actor), passages, ss[1..]);
    }
  }

  const APPROVAL := Write(0, Approved, Some(Supported), [1], "seen", true, true, false)

  lemma ApprovalIsAttested()
    ensures Attested(APPROVAL) && Attested(APPROVAL.(expected := 1)) && !Blank("seen")
  {
    assert "seen"[0] == 's' && 's' in "seen";
  }

  /** An author who overturns another one's decision opens a dispute. */
  lemma DisagreementIsDisputed(first: Actor, second: Actor)
    requires first.id != second.id
    ensures var h := Submitted([], {1}, [Submission(APPROVAL, first), Submission(APPROVAL.(expected := 1, state := Excluded), second)]);
            |h| == 2 && h[1].state.Disputed?
  {
    ApprovalIsAttested();
    var one := Append([], {1}, APPROVAL, first);
    assert one == [Record(1, Approved, Some(Supported), first, false)] && one[..0] == [];
    InTurn([], {1}, [Submission(APPROVAL, first), Submission(APPROVAL.(expected := 1, state := Excluded), second)]);
    InTurn(one, {1}, [Submission(APPROVAL.(expected := 1, state := Excluded), second)]);
  }

  /** Only the most recent final record is compared, so an author who first agrees with another one can then
      overturn the decision alone, without a dispute. */
  lemma AgreeingFirstAvoidsTheDispute(first: Actor, second: Actor)
    requires first.id != second.id
    ensures var h := Submitted([], {1}, [Submission(APPROVAL, first), Submission(APPROVAL.(expected := 1), second),
                                         Submission(APPROVAL.(expected := 2, state := Excluded), second)]);
            |h| == 3 && h[0].state.Approved? && h[0].author == first && h[2].state.Excluded? && h[2].author == second
  {
    ApprovalIsAttested();
    var one := Append([], {1}, APPROVAL, first);
    assert one == [Record(1, Approved, Some(Supported), first, false)] && one[..0] == [];
    var two := Append(one, {1}, APPROVAL.(expected := 1), second);
    assert two == one + [Record(2, Approved, Some(Supported), second, false)] && two[..1] == one;
    var last := Submission(APPROVAL.(expected := 2, state := Excluded), second);
    InTurn([], {1}, [Submission(APPROVAL, first), Submission(APPROVAL.(expected := 1), second), last]);
    InTurn(one, {1}, [Submission(APPROVAL.(expected := 1), second), last]);
    InTurn(two, {1}, [last]);
  }

  /** Exactly when a dissenting final decision is disputed: when the most recent final record is another
      author's and says something else. Dissent from older records alone is not enough. */
  lemma DissentIsDisputedIff(h: seq<Record>, w: Write, actor: Actor, j: nat)
    requires Final(w.state) && !InDispute(h) && j < |h| && Final(h[j].state)
    requires h[j].author.id != actor.id && !Agree(h[j].state, h[j].verdict, w.state, w.verdict)
    ensures exists k :: 0 <= k < |h| && FinalBefore(h, k, |h|)
    ensures SavedState(h, w, actor) == Disputed <==>
            forall k :: 0 <= k < |h| && FinalBefore(h, k, |h|) ==>
              h[k].author.id != actor.id && !Agree(h[k].state, h[k].verdict, w.state, w.verdict)
  {
    var k := LatestFinal(h);
    assert k.Some?;
    assert FinalBefore(h, k.value, |h|);
    forall i | 0 <= i < |h| && FinalBefore(h, i, |h|) ensures i == k.value {}
  }

  lemma InTurn(h: seq<Record>, passages: set<nat>, ss: seq<Submission>)
    requires ss != []
    ensures Submitted(h, passages, ss) == Submitted(Append(h, passages, ss[0].write, ss[0].actor), passages, ss[1..])
    ensures |ss| == 1 ==> Submitted(h, passages, ss) == Append(h, passages, ss[0].write, ss[0].actor)
    ensures |ss| == 2 ==> ss[1..] == [ss[1]]
    ensures |ss| == 3 ==> ss[1..] == [ss[1], ss[2]]
  {
  }

  // ---- The benchmark and its publications ----

  /** `records` are the latest decisions of all cases, in case order. */
  datatype Publication = Publication(number: nat, sourceRevision: nat, records: seq<Record>, criteria: nat)

  datatype Benchmark = Benchmark(histories: seq<seq<Record>>, revision: nat, criteria: nat, criteriaApproved: bool,
                                 publications: seq<Publication>)

  /** Requests against one benchmark; `expected` is the revision the client has seen. */
  datatype Request =
    | Save(item: nat, passages: set<nat>, write: Write, actor: Actor)
    | Import(expected: nat, proposals: map<nat, Write>, actor: Actor)
    | SetCriteria(expected: nat, criteria: nat, approved: bool)
    | Publish(expected: nat)

  predicate Decided(h: seq<Record>) { h != [] && Final(h[|h| - 1].state) }

  function Latest(histories: seq<seq<Record>>): seq<Record>
    requires forall i :: 0 <= i < |histories| ==> histories[i] != []
  {
    seq(|histories|, i requires 0 <= i < |histories| => histories[i][|histories[i]| - 1])
  }

  predicate Publishable(b: Benchmark) {
    && (forall i :: 0 <= i < |b.histories| ==> Decided(b.histories[i]))
    && (exists i :: 0 <= i < |b.histories| && b.histories[i] != [] && b.histories[i][|b.histories[i]| - 1].state.Approved?)
    && b.criteriaApproved
  }

  predicate AlreadyPublished(b: Benchmark)
    requires forall i :: 0 <= i < |b.histories| ==> b.histories[i] != []
  {
    b.publications != [] && b.publications[|b.publications| - 1].records == Latest(b.histories)
    && b.publications[|b.publications| - 1].criteria == b.criteria
  }

  /** Imported proposals only ever become drafts of cases nobody has reviewed, all of them or none. */
  predicate Importable(b: Benchmark, proposals: map<nat, Write>) {
    && proposals != map[]
    && forall i <- proposals.Keys :: i < |b.histories| && b.histories[i] == []
  }

  function ImportedAt(h: seq<Record>, proposals: map<nat, Write>, i: nat, actor: Actor): seq<Record> {
    if i in proposals then h + [Record(|h| + 1, Draft, proposals[i].verdict, actor, false)] else h
  }

  function Step(b: Benchmark, r: Request): Benchmark {
    match r
    case Save(i, passages, write, actor) =>
      if |b.histories| <= i || Refused(b.histories[i], passages, write, actor).Some? then b
      else b.(revision := b.revision + 1, histories := b.histories[i := Append(b.histories[i], passages, write, actor)])
    case Import(expected, proposals, actor) =>
      if expected != b.revision || !Importable(b, proposals) then b
      else b.(revision := b.revision + 1,
              histories := seq(|b.histories|, i requires 0 <= i < |b.histories| => ImportedAt(b.histories[i], proposals, i, actor)))
    case SetCriteria(expected, criteria, approved) =>
      if expected != b.revision then b
      else b.(revision := b.revision + 1, criteria := criteria, criteriaApproved := approved)
    case Publish(expected) =>
      if expected != b.revision || !Publishable(b) || AlreadyPublished(b) then b
      else
        b.(revision := b.revision + 1,
           publications := b.publications + [Publication(|b.publications| + 1, b.revision + 1, Latest(b.histories), b.criteria)])
  }

  ghost predicate PublicationOk(b: Benchmark, k: nat)
    requires k < |b.publications|
  {
    var p := b.publications[k];
    && p.number == k + 1 && p.sourceRevision <= b.revision
    && |p.records| == |b.histories|
    && (forall r <- p.records :: Final(r.state))
    && (exists r <- p.records :: r.state.Approved?)
    && (k > 0 ==> b.publications[k - 1].sourceRevision < p.sourceRevision
                  && (b.publications[k - 1].records != p.records || b.publications[k - 1].criteria != p.criteria))
  }

  ghost predicate Inv(b: Benchmark) {
    && (forall h <- b.histories :: Adjudicated(h))
    && (forall k :: 0 <= k < |b.publications| ==> PublicationOk(b, k))
  }

  lemma PublishKeepsInv(b: Benchmark, expected: nat)
    requires Inv(b)
    ensures Inv(Step(b, Publish(expected)))
  {
    var t := Step(b, Publish(expected));
    if t != b {
      var n := |b.publications|;
      var p := t.publications[n];
      forall r <- p.records ensures Final(r.state) {
        var i :| 0 <= i < |p.records| && p.records[i] == r;
        assert Decided(b.histories[i]);
      }
      var i :| 0 <= i < |b.histories| && b.histories[i] != [] && b.histories[i][|b.histories[i]| - 1].state.Approved?;
      assert p.records[i] in p.records && p.records[i].state.Approved?;
      forall k | 0 <= k < n ensures PublicationOk(t, k) { assert PublicationOk(b, k); }
      if n > 0 { assert PublicationOk(b, n - 1); }
    }
  }

  lemma ImportKeepsInv(b: Benchmark, r: Request)
    requires Inv(b) && r.Import?
    ensures Inv(Step(b, r))
  {
    var t := Step(b, r);
    if t != b {
      forall h <- t.histories ensures Adjudicated(h) {
        var i :| 0 <= i < |t.histories| && t.histories[i] == h;
        assert b.histories[i] in b.histories;
      }
      forall k | 0 <= k < |t.publications| ensures PublicationOk(t, k) { assert PublicationOk(b, k); }
    }
  }

  lemma SaveKeepsInv(b: Benchmark, r: Request)
    requires Inv(b) && (r.Save? || r.SetCriteria?)
    ensures Inv(Step(b, r))
  {
    var t := Step(b, r);
    if t != b {
      if r.Save? { AppendKeepsAdjudication(b.histories[r.item], r.passages, r.write, r.actor); }
      hide Adjudicated, Append;
      forall k | 0 <= k < |t.publications| ensures PublicationOk(t, k) { assert PublicationOk(b, k); }
    }
  }

  function Play(b: Benchmark, rs: seq<Request>): Benchmark
    decreases |rs|
  {
    if rs == [] then b else Play(Step(b, rs[0]), rs[1..])
  }

  /** A publication never contains a pending or disputed case; numbers are contiguous, each publication
      differs from the one before, and none ever changes. */
  lemma {:induction false} PublicationsAreDecided(b: Benchmark, rs: seq<Request>)
    requires Inv(b)
    ensures Inv(Play(b, rs)) && b.publications <= Play(b, rs).publications
    decreases |rs|
  {
    if rs != [] {
      match rs[0] {
        case Save(_, _, _, _) => SaveKeepsInv(b, rs[0]);
        case SetCriteria(_, _, _) => SaveKeepsInv(b, rs[0]);
        case Import(_, _, _) => ImportKeepsInv(b, rs[0]);
        case Publish(expected) => PublishKeepsInv(b, expected);
      }
      PublicationsAreDecided(Step(b, rs[0]), rs[1..]);
    }
  }

  /** Every case is finally decided and one of them is approved, the criteria are approved, the client has seen the
      current revision, and a decision or the criteria changed since the last publication. */
  ghost predicate Publishes(b: Benchmark, expected: nat) {
    && expected == b.revision && b.criteriaApproved
    && (forall i :: 0 <= i < |b.histories| ==>
          var h := b.histories[i]; h != [] && (h[|h| - 1].state == Approved || h[|h| - 1].state == Excluded))
    && (exists i :: 0 <= i < |b.histories| && b.histories[i][|b.histories[i]| - 1].state == Approved)
    && (b.publications == [] ||
        var last := b.publications[|b.publications| - 1];
        last.criteria != b.criteria || |last.records| != |b.histories|
        || exists i :: 0 <= i < |b.histories| && last.records[i] != b.histories[i][|b.histories[i]| - 1])
  }

  /** One publication more, of the last record of each case. */
  function Published(b: Benchmark): Benchmark
    requires forall i :: 0 <= i < |b.histories| ==> b.histories[i] != []
  {
    var records := seq(|b.histories|, i requires 0 <= i < |b.histories| => b.histories[i][|b.histories[i]| - 1]);
    Benchmark(b.histories, b.revision + 1, b.criteria, b.criteriaApproved,
              b.publications + [Publication(|b.publications| + 1, b.revision + 1, records, b.criteria)])
  }

  lemma PublishesIff(b: Benchmark, expected: nat)
    ensures Step(b, Publish(expected)) == if Publishes(b, expected) then Published(b) else b
  {
    if Publishable(b) {
      assert forall i :: 0 <= i < |b.histories| ==> Decided(b.histories[i]);
      var n :| 0 <= n < |b.histories| && b.histories[n] != [] && b.histories[n][|b.histories[n]| - 1].state.Approved?;
      assert b.histories[n][|b.histories[n]| - 1].state == Approved;
      var records := Latest(b.histories);
      assert Published(b).publications[|b.publications|].records == records;
      if b.publications != [] && records != b.publications[|b.publications| - 1].records
         && |records| == |b.publications[|b.publications| - 1].records| {
        var i :| 0 <= i < |records| && records[i] != b.publications[|b.publications| - 1].records[i];
        assert records[i] == b.histories[i][|b.histories[i]| - 1];
      }
    } else if Publishes(b, expected) {
      forall i | 0 <= i < |b.histories| ensures Decided(b.histories[i]) {}
    }
  }

  /** An import changes something exactly if it was made against the current revision, names some cases, and all of
      them exist and have no record; each then has one draft with the proposed verdict, and nothing else changes. */
  lemma ImportIsDrafts(b: Benchmark, expected: nat, proposals: map<nat, Write>, actor: Actor)
    ensures var t := Step(b, Import(expected, proposals, actor));
            if expected == b.revision && proposals != map[] && (forall i <- proposals.Keys :: i < |b.histories| && b.histories[i] == [])
            then
              && t == b.(revision := b.revision + 1, histories := t.histories) && |t.histories| == |b.histories|
              && forall i :: 0 <= i < |b.histories| ==>
                   t.histories[i] == if i in proposals then [Record(1, Draft, proposals[i].verdict, actor, false)] else b.histories[i]
            else t == b
  {
  }

  /** New criteria are saved against the current revision only, and count as approved only if they are said to be. */
  lemma CriteriaAreSet(b: Benchmark, expected: nat, criteria: nat, approved: bool)
    ensures Step(b, SetCriteria(expected, criteria, approved)) ==
              if expected != b.revision then b
              else Benchmark(b.histories, b.revision + 1, criteria, approved, b.publications)
  {
  }

  /** What is published is exactly the latest decision of every case at the revision the client had seen. */
  lemma PublishTakesTheReviewedRevision(b: Benchmark, r: Request)
    requires Step(b, r).publications != b.publications
    ensures r.Publish? && r.expected == b.revision && Publishable(b)
    ensures Step(b, r).publications == b.publications + [Publication(|b.publications| + 1, b.revision + 1, Latest(b.histories), b.criteria)]
  {
  }

  // ---- The desk ----

  class Desk {
    var histories: seq<seq<Record>>
    var revision: nat
    var criteria: nat
    var criteriaApproved: bool
    var publications: seq<Publication>

    ghost function Value(): Benchmark
      reads this
    {
      Benchmark(histories, revision, criteria, criteriaApproved, publications)
    }

    constructor (cases: nat)
      ensures Value() == Benchmark(seq(cases, _ => []), 0, 0, false, []) && Inv(Value())
    {
      histories, revision, criteria, criteriaApproved, publications := seq(cases, _ => []), 0, 0, false, [];
    }

    /** The most recent final record, by scanning the history backwards. */
    method FindFinal(h: seq<Record>) returns (k: Option<nat>)
      ensures k == LatestFinal(h)
      ensures k.Some? ==> FinalBefore(h, k.value, |h|)
      ensures k.None? ==> forall i :: 0 <= i < |h| ==> h[i].state != Approved && h[i].state != Excluded
    {
      var n := |h|;
      while n > 0 && !Final(h[n - 1].state)
        invariant 0 <= n <= |h| && LatestFinal(h) == LatestFinal(h[..n])
      {
        assert h[..n][..n - 1] == h[..n - 1];
        n := n - 1;
      }
      k := if n == 0 then None else Some(n - 1);
    }

    /** Save one review, or refuse it and leave everything as it was. */
    method SaveReview(item: nat, passages: set<nat>, w: Write, actor: Actor) returns (refused: Option<Refusal>)
      requires item < |histories|
      modifies this
      ensures Value() == Step(old(Value()), Save(item, passages, w, actor))
      ensures refused == Refused(old(histories)[item], passages, w, actor)
      ensures w.expected != |old(histories)[item]| ==> refused == Some(Changed)
      ensures refused.None? <==> Acceptable(old(histories)[item], passages, w, actor)
      ensures refused.Some? ==> Value() == old(Value())
      ensures refused.None? ==>
                var h := old(histories)[item];
                var state := if Overturns(h, w, actor) then Disputed else w.state;
                Value() == old(Value()).(revision := old(revision) + 1,
                  histories := old(histories)[item := h + [Record(|h| + 1, state, w.verdict, actor, w.resolve)]])
    {
      var h := histories[item];
      AcceptedIff(h, passages, w, actor);
      hide Overturns, FinalBefore, Acceptable;
      if w.expected != |h| { return Some(Changed); }
      if !Distinct(w.evidence) { return Some(DuplicateEvidence); }
      if exists e <- w.evidence :: e !in passages { return Some(ForeignEvidence); }
      if w.state.Disputed? && Blank(w.rationale) { return Some(UnexplainedDispute); }
      if w.resolve && !actor.superAdmin { return Some(NotSuperAdmin); }
      var disputed := h != [] && h[|h| - 1].state.Disputed?;
      if disputed && !w.state.Disputed? {
        if !actor.superAdmin || !w.resolve || !Final(w.state) { return Some(NeedsResolution); }
      }
      var state := w.state;
      var k := FindFinal(h);
      if k.Some? && Final(w.state) && !disputed {
        var earlier := h[k.value];
        if earlier.author.id != actor.id
           && (earlier.state != w.state || (w.state.Approved? && earlier.verdict != w.verdict)) {
          state := Disputed;
        }
      }
      if !Attested(w) { return Some(Unattested); }
      AppendedIs(h, passages, w, actor);
      histories, revision := histories[item := h + [Record(w.expected + 1, state, w.verdict, actor, w.resolve)]], revision + 1;
      refused := None;
    }

    /** Publish the latest decisions if every case is decided and something changed since last time. */
    method PublishReviews(expected: nat) returns (published: bool)
      modifies this
      ensures Value() == Step(old(Value()), Publish(expected))
      ensures published <==> publications != old(publications)
      ensures published <==> Publishes(old(Value()), expected)
      ensures published ==> Value() == Published(old(Value()))
      ensures !published ==> Value() == old(Value())
    {
      published := false;
      PublishesIff(Value(), expected);
      hide Publishes;
      if expected != revision { return; }
      var records, approved: bool := [], false;
      for i := 0 to |histories|
        invariant |records| == i
        invariant forall n :: 0 <= n < i ==> Decided(histories[n]) && records[n] == histories[n][|histories[n]| - 1]
        invariant approved <==> exists n :: 0 <= n < i && records[n].state.Approved?
      {
        var h := histories[i];
        if h == [] || !Final(h[|h| - 1].state) { return; }
        records := records + [h[|h| - 1]];
        approved := approved || h[|h| - 1].state.Approved?;
      }
      assert records == Latest(histories);
      if !approved || !criteriaApproved { return; }
      if publications != [] && publications[|publications| - 1].records == records
         && publications[|publications| - 1].criteria == criteria {
        return;
      }
      revision := revision + 1;
      publications := publications + [Publication(|publications| + 1, revision, records, criteria)];
      published := true;
    }
  }
}
