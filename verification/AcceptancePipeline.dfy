/** The stage validators of the research runner, and the independent gate that later checks saved output.

    Provider output is arbitrary. The runner keeps what its validators accept; the gate reads only what
    was saved. */
module AcceptancePipeline {
  import opened Prelude
  import opened ReportingPeriod

  datatype Basis = MetadataOnly | AbstractOnly | ExtractedSections | OpenFullText | UserProvided | Unclear

  /** `attributed` says whether a source attribution is shown; `claims` are the findings it reports. */
  datatype Summary = Summary(id: string, basis: Basis, attributed: bool, claims: seq<string>, confidence: nat)

  /** Permission-checked source content. Its basis can only be one of three. */
  datatype Document = Document(available: bool, passages: nat, basis: Basis, linked: bool)

  /** The seven groups of references a trend analysis makes, each item listing paper identifiers. */
  datatype Trends = Trends(themes: seq<seq<string>>, emerging: seq<seq<string>>, problems: seq<seq<string>>,
                           contradictions: seq<seq<string>>, signals: seq<seq<string>>, changes: seq<seq<string>>,
                           implications: seq<seq<string>>)

  datatype Briefing = Briefing(top: seq<string>, secondary: seq<string>, recommendations: seq<seq<string>>,
                               mainSignal: Option<seq<string>>)

  datatype Stages = Stages(papers: seq<Paper>, assessments: seq<Assessment>, summaries: seq<Summary>, trends: Trends, briefing: Briefing)

  datatype Rejection = TooManyPapers | BadInterval | WrongSummaries | MissingSource | UnknownReference | Interrupted

  // ---- References ----

  function Ids(groups: seq<seq<string>>): set<string> { set g, x | g in groups && x in g :: x }

  function TrendReferences(t: Trends): set<string> {
    Ids(t.themes) + Ids(t.emerging) + Ids(t.problems) + Ids(t.contradictions) + Ids(t.signals) + Ids(t.changes) + Ids(t.implications)
  }

  function BriefingReferences(b: Briefing): set<string> {
    ToSet(b.top) + ToSet(b.secondary) + Ids(b.recommendations) + (if b.mainSignal.Some? then ToSet(b.mainSignal.value) else {})
  }

  function SummaryIds(s: seq<Summary>): set<string> { set x | x in s :: x.id }

  function SelectedIds(assessments: seq<Assessment>): set<string> { set a | a in assessments && Selected(a) :: a.id }

  /** What the references are: everything listed by any item of any group. */
  ghost predicate IsReferenced(t: Trends, b: Briefing, id: string) {
    || (exists g <- t.themes :: id in g) || (exists g <- t.emerging :: id in g) || (exists g <- t.problems :: id in g)
    || (exists g <- t.contradictions :: id in g) || (exists g <- t.signals :: id in g) || (exists g <- t.changes :: id in g)
    || (exists g <- t.implications :: id in g)
    || id in b.top || id in b.secondary || (exists g <- b.recommendations :: id in g)
    || (b.mainSignal.Some? && id in b.mainSignal.value)
  }

  lemma ReferencesAreListed(t: Trends, b: Briefing, id: string)
    ensures id in TrendReferences(t) + BriefingReferences(b) <==> IsReferenced(t, b, id)
  {
  }

  ghost predicate IsSelected(assessments: seq<Assessment>, id: string) {
    exists a <- assessments :: a.id == id && (a.advice == Summarize || a.advice == MentionBriefly)
  }

  lemma SelectionIsListed(assessments: seq<Assessment>, id: string)
    ensures id in SelectedIds(assessments) <==> IsSelected(assessments, id)
  {
  }

  predicate UniqueSummaries(s: seq<Summary>) {
    forall i, j :: 0 <= i < j < |s| ==> s[i].id != s[j].id
  }

  /** The papers to summarise, in discovery order. */
  function SummaryInput(papers: seq<Paper>, selected: set<string>): seq<string> {
    if papers == [] then []
    else (if papers[0].id in selected then [papers[0].id] else []) + SummaryInput(papers[1..], selected)
  }

  lemma {:induction false} SummaryInputIsSelection(papers: seq<Paper>, selected: set<string>)
    ensures ToSet(SummaryInput(papers, selected)) == selected * PaperIds(papers)
  {
    if papers != [] {
      SummaryInputIsSelection(papers[1..], selected);
      assert papers == [papers[0]] + papers[1..];
      assert PaperIds(papers) == {papers[0].id} + PaperIds(papers[1..]);
      var head := if papers[0].id in selected then [papers[0].id] else [];
      assert ToSet(SummaryInput(papers, selected)) == ToSet(head) + ToSet(SummaryInput(papers[1..], selected));
    }
  }

  /** The summary input keeps the discovery order, and so names no paper twice. */
  lemma {:induction false} SummaryInputKeepsOrder(papers: seq<Paper>, selected: set<string>, k: nat, l: nat, i: nat, j: nat)
    requires UniquePapers(papers) && i < |papers| && j < |papers| && k < l < |SummaryInput(papers, selected)|
    requires papers[i].id == SummaryInput(papers, selected)[k] && papers[j].id == SummaryInput(papers, selected)[l]
    ensures i < j
  {
    var rest := SummaryInput(papers[1..], selected);
    var head := if papers[0].id in selected then [papers[0].id] else [];
    assert SummaryInput(papers, selected) == head + rest;
    if j == 0 {
      OnlyListed(papers[1..], selected, l - |head|);
      assert false;
    } else if 0 < i {
      SummaryInputKeepsOrder(papers[1..], selected, k - |head|, l - |head|, i - 1, j - 1);
    }
  }

  lemma OnlyListed(papers: seq<Paper>, selected: set<string>, k: nat)
    requires k < |SummaryInput(papers, selected)|
    ensures exists p <- papers :: p.id == SummaryInput(papers, selected)[k]
  {
    SummaryInputIsSelection(papers, selected);
    assert SummaryInput(papers, selected)[k] in ToSet(SummaryInput(papers, selected));
  }

  // ---- Constraining summaries ----

  /** Claims about sources come from the approved document only. */
  function Constrained(s: Summary, d: Document): Summary {
    if !d.available || d.passages == 0 then Summary(s.id, MetadataOnly, false, [], 1)
    else s.(basis := d.basis, attributed := true)
  }

  /** `s` is what is kept of the provider's summary `o`: without approved text it claims nothing at all. */
  predicate Approved(s: Summary, o: Summary, documents: map<string, Document>) {
    && o.id in documents
    && var d := documents[o.id];
       if d.available && d.passages > 0 then s == o.(basis := d.basis, attributed := true)
       else s == Summary(o.id, MetadataOnly, false, [], 1)
  }

  predicate ValidDocument(d: Document) { d.basis in {MetadataOnly, AbstractOnly, ExtractedSections} }

  /** There is an approved document for each summary, linked to its source if its text is used. */
  predicate Sourced(output: seq<Summary>, documents: map<string, Document>) {
    forall s <- output :: s.id in documents &&
      (documents[s.id].available && documents[s.id].passages > 0 ==> documents[s.id].linked)
  }

  /** Overwrite the summaries in place; a document without links to its source and licence is refused. */
  method ConstrainSummaries(output: array<Summary>, documents: map<string, Document>) returns (ok: bool)
    modifies output
    ensures ok <==> Sourced(old(output[..]), documents)
    ensures ok <==>
              forall i :: 0 <= i < output.Length ==>
                var id := old(output[i].id);
                id in documents && (!documents[id].available || documents[id].passages == 0 || documents[id].linked)
    ensures ok ==> forall i :: 0 <= i < output.Length ==>
              var s := old(output[i]);
              var d := documents[s.id];
              output[i] == if d.available && d.passages > 0 then s.(basis := d.basis, attributed := true)
                           else Summary(s.id, MetadataOnly, false, [], 1)
  {
    ghost var was := output[..];
    for n := 0 to output.Length
      invariant forall i :: 0 <= i < n ==>
                  was[i].id in documents && output[i] == Constrained(was[i], documents[was[i].id])
                  && (documents[was[i].id].available && documents[was[i].id].passages > 0 ==> documents[was[i].id].linked)
      invariant forall i :: n <= i < output.Length ==> output[i] == was[i]
    {
      hide Sourced;
      var s := output[n];
      assert s in was;
      if s.id !in documents { return false; }
      var d := documents[s.id];
      if !d.available || d.passages == 0 {
        output[n] := Summary(s.id, MetadataOnly, false, [], 1);
        continue;
      }
      if !d.linked { return false; }
      output[n] := s.(basis := d.basis, attributed := true);
    }
    ok := true;
  }

  // ---- The runner's acceptance ----

  /** What the saved stages satisfy once every validator has passed. */
  ghost predicate Accepted(s: Stages, first: int, last: int) {
    var selected := SelectedIds(s.assessments);
    && Contract(s.papers, s.assessments)
    && SummaryIds(s.summaries) == selected
    && TrendReferences(s.trends) <= selected && BriefingReferences(s.briefing) <= selected
    && (forall p <- s.papers :: p.id in selected && p.published.Some? ==> first <= p.published.value <= last)
    && (forall x <- s.summaries :: !x.basis.OpenFullText?)
  }

  lemma SelectedAreDated(papers: seq<Paper>, assessments: seq<Assessment>, first: int, last: int)
    requires Contract(papers, assessments)
    ensures forall p <- MarkPapers(papers, first, last) ::
              p.id in SelectedIds(MarkAssessments(assessments, papers, first, last)) && p.published.Some? ==>
                first <= p.published.value <= last
  {
    var marked, rated := MarkPapers(papers, first, last), MarkAssessments(assessments, papers, first, last);
    RulePieces(papers, assessments, first, last);
    forall p <- marked | p.id in SelectedIds(rated) && p.published.Some? ensures first <= p.published.value <= last {
      var i :| 0 <= i < |marked| && marked[i] == p;
      var a :| a in rated && Selected(a) && a.id == p.id;
      var j :| 0 <= j < |rated| && rated[j] == a;
      SelectedAreInPeriod(papers, assessments, first, last, i, j);
    }
  }

  /** A validated batch: one summary for each of its papers. */
  predicate ValidBatch(output: seq<Summary>, expected: set<string>) {
    UniqueSummaries(output) && SummaryIds(output) == expected
  }

  /** The provider's answer is good for this batch: one summary for each of its papers and no other, and an approved
      document for each, linked to its source if its text is used. */
  ghost predicate Answers(output: seq<Summary>, batch: seq<string>, documents: map<string, Document>) {
    && (forall i, j :: 0 <= i < j < |output| ==> output[i].id != output[j].id)
    && (forall id :: id in batch <==> exists x <- output :: x.id == id)
    && (forall x <- output :: x.id in documents && (!documents[x.id].available || documents[x.id].passages == 0 || documents[x.id].linked))
  }

  lemma AnswersIff(output: seq<Summary>, batch: seq<string>, documents: map<string, Document>)
    ensures ValidBatch(output, ToSet(batch)) && Sourced(output, documents) <==> Answers(output, batch, documents)
  {
    forall id ensures id in SummaryIds(output) <==> exists x <- output :: x.id == id {}
    forall id ensures id in ToSet(batch) <==> id in batch {}
  }

  /** The papers of batch `k`: the last batch may be shorter. */
  function BatchOf(ids: seq<string>, size: nat, k: nat): seq<string>
    requires k * size <= |ids|
  {
    if (k + 1) * size <= |ids| then ids[k * size..(k + 1) * size] else ids[k * size..]
  }

  /** If there is a batch `k`, the provider's answer to it is good. */
  ghost predicate BatchAnswered(ids: seq<string>, size: nat, outputs: seq<seq<Summary>>, documents: map<string, Document>, k: nat) {
    k * size < |ids| ==> k < |outputs| && Answers(outputs[k], BatchOf(ids, size, k), documents)
  }

  lemma LaterBatch(ids: seq<string>, size: nat, outputs: seq<seq<Summary>>, documents: map<string, Document>, k: nat)
    requires 1 <= size < |ids| && outputs != []
    ensures BatchAnswered(ids[size..], size, outputs[1..], documents, k) <==> BatchAnswered(ids, size, outputs, documents, k + 1)
  {
    assert (k + 1) * size == k * size + size && (k + 2) * size == k * size + 2 * size;
    if k * size < |ids| - size {
      assert BatchOf(ids[size..], size, k) == BatchOf(ids, size, k + 1);
    }
  }

  lemma FirstBatch(ids: seq<string>, size: nat, outputs: seq<seq<Summary>>, documents: map<string, Document>)
    requires 1 <= size && ids != []
    ensures BatchAnswered(ids, size, outputs, documents, 0) <==>
              outputs != [] && Answers(outputs[0], ids[..FirstOf(ids, size)], documents)
  {
    assert BatchOf(ids, size, 0) == ids[..FirstOf(ids, size)];
  }

  lemma OnlyBatch(ids: seq<string>, size: nat, outputs: seq<seq<Summary>>, documents: map<string, Document>, k: nat)
    requires |ids| <= size && 0 < k
    ensures BatchAnswered(ids, size, outputs, documents, k)
  {
    assert k * size == size + (k - 1) * size;
  }

  /** Every batch is accepted exactly if every one, counted from the start, gets a good answer. */
  lemma {:induction false} BatchesAcceptedIff(ids: seq<string>, size: nat, outputs: seq<seq<Summary>>, documents: map<string, Document>)
    requires size >= 1
    ensures AllBatchesAccepted(ids, size, outputs, documents) <==> forall k: nat :: BatchAnswered(ids, size, outputs, documents, k)
    decreases |ids|
  {
    if ids == [] { return; }
    hide BatchAnswered;
    FirstBatch(ids, size, outputs, documents);
    if outputs == [] { return; }
    AnswersIff(outputs[0], ids[..FirstOf(ids, size)], documents);
    hide Answers, ValidBatch, Sourced;
    var rest, more := ids[FirstOf(ids, size)..], outputs[1..];
    BatchesAcceptedIff(rest, size, more, documents);
    if size < |ids| {
      forall k: nat ensures BatchAnswered(rest, size, more, documents, k) <==> BatchAnswered(ids, size, outputs, documents, k + 1) {
        LaterBatch(ids, size, outputs, documents, k);
      }
      forall k: nat | 0 < k ensures BatchAnswered(ids, size, outputs, documents, k) <==> BatchAnswered(rest, size, more, documents, k - 1) {
        LaterBatch(ids, size, outputs, documents, k - 1);
      }
    } else {
      forall k: nat | 0 < k ensures BatchAnswered(ids, size, outputs, documents, k) { OnlyBatch(ids, size, outputs, documents, k); }
      assert rest == [] && AllBatchesAccepted(rest, size, more, documents);
    }
  }

  function FirstOf(ids: seq<string>, size: nat): nat { if size < |ids| then size else |ids| }

  /** Every batch gets an answer that the validators accept. */
  predicate AllBatchesAccepted(ids: seq<string>, size: nat, outputs: seq<seq<Summary>>, documents: map<string, Document>)
    requires size >= 1
    decreases |ids|
  {
    ids != [] ==>
      && outputs != [] && ValidBatch(outputs[0], ToSet(ids[..FirstOf(ids, size)])) && Sourced(outputs[0], documents)
      && AllBatchesAccepted(ids[FirstOf(ids, size)..], size, outputs[1..], documents)
  }

  /** Summaries batch by batch, each validated and constrained before it is kept. `outputs` are whatever the
      provider returns. */
  method Summarise(ids: seq<string>, size: nat, outputs: seq<seq<Summary>>, documents: map<string, Document>)
    returns (r: Result<seq<Summary>, Rejection>)
    requires size >= 1 && forall d <- documents.Values :: ValidDocument(d)
    ensures r.Ok? <==> AllBatchesAccepted(ids, size, outputs, documents)
    ensures r.Ok? ==> SummaryIds(r.value) == ToSet(ids) && forall s <- r.value :: !s.basis.OpenFullText?
    ensures r.Ok? ==> forall s <- r.value :: exists k, o :: 0 <= k < |outputs| && o in outputs[k] && Approved(s, o, documents)
  {
    hide Sourced, ValidBatch, Approved;
    var kept: seq<Summary> := [];
    var from, k := 0, 0;
    while from < |ids|
      invariant 0 <= from <= |ids| && k <= |outputs|
      invariant SummaryIds(kept) == ToSet(ids[..from])
      invariant forall s <- kept :: !s.basis.OpenFullText?
      invariant forall s <- kept :: exists j, o :: 0 <= j < |outputs| && o in outputs[j] && Approved(s, o, documents)
      invariant AllBatchesAccepted(ids, size, outputs, documents) == AllBatchesAccepted(ids[from..], size, outputs[k..], documents)
      decreases |ids| - from
    {
      var next := if from + size < |ids| then from + size else |ids|;
      var batch := ids[from..next];
      assert batch == ids[from..][..FirstOf(ids[from..], size)] && ids[next..] == ids[from..][FirstOf(ids[from..], size)..];
      if k >= |outputs| { return Err(Interrupted); }
      assert outputs[k..][0] == outputs[k] && outputs[k + 1..] == outputs[k..][1..];
      if !ValidBatch(outputs[k], ToSet(batch)) { return Err(WrongSummaries); }
      var constrained := Constrain(outputs[k], documents);
      if constrained.None? { return Err(MissingSource); }
      BatchIds(outputs[k], ToSet(batch));
      SummaryIdsOfBoth(kept, constrained.value);
      ToSetOfBoth(ids[..from], batch);
      assert ids[..next] == ids[..from] + batch;
      kept, from, k := kept + constrained.value, next, k + 1;
    }
    assert ids[..|ids|] == ids && ids[|ids|..] == [];
    return Ok(kept);
  }

  lemma BatchIds(output: seq<Summary>, expected: set<string>)
    requires ValidBatch(output, expected)
    ensures SummaryIds(output) == expected
  {
  }

  lemma SummaryIdsOfBoth(a: seq<Summary>, b: seq<Summary>)
    ensures SummaryIds(a + b) == SummaryIds(a) + SummaryIds(b)
  {
  }

  lemma ToSetOfBoth(a: seq<string>, b: seq<string>)
    ensures ToSet(a + b) == ToSet(a) + ToSet(b)
  {
  }

  method Constrain(output: seq<Summary>, documents: map<string, Document>) returns (r: Option<seq<Summary>>)
    requires forall d <- documents.Values :: ValidDocument(d)
    ensures r.Some? <==> Sourced(output, documents)
    ensures r.Some? ==> SummaryIds(r.value) == SummaryIds(output) && forall s <- r.value :: !s.basis.OpenFullText?
    ensures r.Some? ==> forall s <- r.value :: exists o <- output :: Approved(s, o, documents)
  {
    var buffer := new Summary[|output|](i requires 0 <= i < |output| => output[i]);
    assert buffer[..] == output;
    var ok := ConstrainSummaries(buffer, documents);
    if !ok { return None; }
    var kept := buffer[..];
    forall i | 0 <= i < |kept| ensures kept[i].id == output[i].id && !kept[i].basis.OpenFullText? {
      assert documents[output[i].id] in documents.Values;
    }
    SameSummaryIds(output, kept);
    forall s <- kept ensures exists o <- output :: Approved(s, o, documents) {
      var i :| 0 <= i < |kept| && kept[i] == s;
      assert Approved(s, output[i], documents);
    }
    r := Some(kept);
  }

  lemma SameSummaryIds(a: seq<Summary>, b: seq<Summary>)
    requires |a| == |b| && forall j :: 0 <= j < |a| ==> a[j].id == b[j].id
    ensures SummaryIds(a) == SummaryIds(b)
  {
    forall id ensures id in SummaryIds(a) <==> id in SummaryIds(b) {
      if id in SummaryIds(a) { var j :| 0 <= j < |a| && a[j].id == id; assert b[j] in b; }
      if id in SummaryIds(b) { var j :| 0 <= j < |b| && b[j].id == id; assert a[j] in a; }
    }
  }

  predicate ValidReferences(references: set<string>, known: set<string>) { references - known == {} }

  lemma NothingUnknown(references: set<string>, known: set<string>)
    requires ValidReferences(references, known)
    ensures references <= known
  {
    forall x <- references ensures x in known { assert x !in references - known; }
  }

  /** Exactly what the runner accepts. */
  predicate Passes(papers: seq<Paper>, assessments: seq<Assessment>, first: int, last: int, maximum: nat, size: nat,
                   outputs: seq<seq<Summary>>, documents: map<string, Document>, trends: Trends, briefing: Briefing)
    requires size >= 1
  {
    var selected := SelectedIds(MarkAssessments(assessments, papers, first, last));
    && |papers| <= maximum && first <= last
    && AllBatchesAccepted(SummaryInput(MarkPapers(papers, first, last), selected), size, outputs, documents)
    && ValidReferences(TrendReferences(trends), selected) && ValidReferences(BriefingReferences(briefing), selected)
  }

  /** Exactly the papers recommended for a summary and not known to be out of period are selected. */
  lemma SelectedExactly(papers: seq<Paper>, assessments: seq<Assessment>, first: int, last: int, id: string)
    requires Contract(papers, assessments)
    ensures id in SelectedIds(MarkAssessments(assessments, papers, first, last)) <==>
              IsSelected(assessments, id) && forall p <- papers :: p.id == id && p.published.Some? ==> first <= p.published.value <= last
  {
    var rated := MarkAssessments(assessments, papers, first, last);
    RulePieces(papers, assessments, first, last);
    if id in AssessmentIds(assessments) {
      var a :| a in assessments && a.id == id;
      var j :| 0 <= j < |assessments| && assessments[j] == a;
      assert id in PaperIds(papers);
      var p :| p in papers && p.id == id;
      var i :| 0 <= i < |papers| && papers[i] == p;
      RuleIsExact(papers, assessments, first, last, i, j);
      OnlyAssessment(assessments, j, id);
      OnlyAssessment(rated, j, id);
      OnlyPaper(papers, i, id);
    } else if id in SelectedIds(rated) {
      SameAssessmentIds(assessments, rated);
    }
  }

  lemma OnlyAssessment(assessments: seq<Assessment>, j: nat, id: string)
    requires j < |assessments| && assessments[j].id == id
    requires forall i, k :: 0 <= i < k < |assessments| ==> assessments[i].id != assessments[k].id
    ensures id in SelectedIds(assessments) <==> Selected(assessments[j])
    ensures IsSelected(assessments, id) <==> Selected(assessments[j])
  {
    assert assessments[j] in assessments;
  }

  lemma OnlyPaper(papers: seq<Paper>, i: nat, id: string)
    requires UniquePapers(papers) && i < |papers| && papers[i].id == id
    ensures forall p <- papers :: p.id == id ==> p == papers[i]
  {
  }

  /** The runner accepts exactly this: discovery within its cap for a valid period, a good answer for every batch of
      selected papers in discovery order, and trends and a briefing that refer to selected papers only. */
  lemma PassesIff(papers: seq<Paper>, assessments: seq<Assessment>, first: int, last: int, maximum: nat, size: nat,
                  outputs: seq<seq<Summary>>, documents: map<string, Document>, trends: Trends, briefing: Briefing)
    requires Contract(papers, assessments) && size >= 1
    ensures var ids := SummaryInput(MarkPapers(papers, first, last), SelectedIds(MarkAssessments(assessments, papers, first, last)));
            Passes(papers, assessments, first, last, maximum, size, outputs, documents, trends, briefing) <==>
              && |papers| <= maximum && first <= last
              && AllBatchesAccepted(ids, size, outputs, documents)
              && (forall id :: IsReferenced(trends, briefing, id) ==>
                    && IsSelected(assessments, id)
                    && forall p <- papers :: p.id == id && p.published.Some? ==> first <= p.published.value <= last)
  {
    var selected := SelectedIds(MarkAssessments(assessments, papers, first, last));
    forall id
      ensures id in TrendReferences(trends) + BriefingReferences(briefing) <==> IsReferenced(trends, briefing, id)
      ensures id in selected <==>
                IsSelected(assessments, id) && forall p <- papers :: p.id == id && p.published.Some? ==> first <= p.published.value <= last
    {
      ReferencesAreListed(trends, briefing, id);
      SelectedExactly(papers, assessments, first, last, id);
    }
    hide Contract, SelectedIds, MarkAssessments, MarkPapers, SummaryInput, AllBatchesAccepted, IsReferenced, IsSelected;
    hide TrendReferences, BriefingReferences;
    NothingUnknownIff(TrendReferences(trends), selected);
    NothingUnknownIff(BriefingReferences(briefing), selected);
  }

  lemma NothingUnknownIff(references: set<string>, known: set<string>)
    ensures ValidReferences(references, known) <==> references <= known
  {
    if ValidReferences(references, known) { NothingUnknown(references, known); }
  }

  /** Discovery as it is saved: capped, and selecting nothing that is known to be out of period. */
  method Discover(papers: array<Paper>, assessments: array<Assessment>, first: int, last: int, maximum: nat)
    returns (rejected: Option<Rejection>)
    requires Contract(papers[..], assessments[..])
    modifies papers, assessments
    ensures rejected.None? <==> papers.Length <= maximum && first <= last
    ensures rejected.None? ==> papers[..] == MarkPapers(old(papers[..]), first, last)
    ensures rejected.None? ==> assessments[..] == MarkAssessments(old(assessments[..]), old(papers[..]), first, last)
    ensures rejected.None? ==> Contract(papers[..], assessments[..])
    ensures rejected.None? ==>
              forall p <- papers[..] :: p.id in SelectedIds(assessments[..]) && p.published.Some? ==>
                first <= p.published.value <= last
  {
    hide Contract, MarkPapers, MarkAssessments, SelectedIds;
    if papers.Length > maximum { return Some(TooManyPapers); }
    RuleKeepsIdentities(papers[..], assessments[..], first, last);
    SelectedAreDated(papers[..], assessments[..], first, last);
    var valid := ExcludeOutOfPeriod(papers, assessments, first, last);
    rejected := if valid then None else Some(BadInterval);
  }

  /** A fresh run from discovery to briefing: whatever the providers return, what is kept is accepted. */
  method RunStages(papers: array<Paper>, assessments: array<Assessment>, first: int, last: int, maximum: nat,
                   size: nat, outputs: seq<seq<Summary>>, documents: map<string, Document>, trends: Trends, briefing: Briefing)
    returns (r: Result<Stages, Rejection>)
    requires Contract(papers[..], assessments[..]) && size >= 1 && forall d <- documents.Values :: ValidDocument(d)
    modifies papers, assessments
    ensures r.Ok? ==> Accepted(r.value, first, last) && |r.value.papers| <= maximum && first <= last
    ensures r.Ok? ==>
              && r.value.papers == MarkPapers(old(papers[..]), first, last)
              && r.value.assessments == MarkAssessments(old(assessments[..]), old(papers[..]), first, last)
              && (forall s <- r.value.summaries :: exists k, o :: 0 <= k < |outputs| && o in outputs[k] && Approved(s, o, documents))
              && r.value.trends == trends && r.value.briefing == briefing
    ensures r.Ok? <==> Passes(old(papers[..]), old(assessments[..]), first, last, maximum, size, outputs, documents, trends, briefing)
  {
    var rejected := Discover(papers, assessments, first, last, maximum);
    if rejected.Some? { return Err(rejected.value); }
    var found, rated := papers[..], assessments[..];
    var ids := SummaryInput(found, SelectedIds(rated));
    SummaryInputIsSelection(found, SelectedIds(rated));
    SelectedAreFound(found, rated);
    assert ToSet(ids) == SelectedIds(rated);
    hide Contract, MarkPapers, MarkAssessments, SummaryInput, AllBatchesAccepted, SelectedIds, SummaryIds, PaperIds;
    hide TrendReferences, BriefingReferences, ToSet, ValidReferences, Accepted, Approved;
    var summaries := Summarise(ids, size, outputs, documents);
    if summaries.Err? { return Err(summaries.error); }
    var known := SummaryIds(summaries.value);
    if !ValidReferences(TrendReferences(trends), known) || !ValidReferences(BriefingReferences(briefing), known) {
      return Err(UnknownReference);
    }
    r := Ok(Stages(found, rated, summaries.value, trends, briefing));
    AllChecked(r.value, first, last);
  }

  lemma AllChecked(s: Stages, first: int, last: int)
    requires Contract(s.papers, s.assessments)
    requires SummaryIds(s.summaries) == ToSet(SummaryInput(s.papers, SelectedIds(s.assessments)))
    requires ValidReferences(TrendReferences(s.trends), SummaryIds(s.summaries))
    requires ValidReferences(BriefingReferences(s.briefing), SummaryIds(s.summaries))
    requires forall p <- s.papers :: p.id in SelectedIds(s.assessments) && p.published.Some? ==> first <= p.published.value <= last
    requires forall x <- s.summaries :: !x.basis.OpenFullText?
    ensures Accepted(s, first, last)
  {
    hide Contract, SelectedIds, SummaryIds, PaperIds, TrendReferences, BriefingReferences, ToSet, ValidReferences, SummaryInput;
    var selected := SelectedIds(s.assessments);
    SummaryInputIsSelection(s.papers, selected);
    SelectedAreFound(s.papers, s.assessments);
    NothingUnknown(TrendReferences(s.trends), SummaryIds(s.summaries));
    NothingUnknown(BriefingReferences(s.briefing), SummaryIds(s.summaries));
    assert selected * PaperIds(s.papers) == selected;
  }

  lemma SelectedAreFound(papers: seq<Paper>, assessments: seq<Assessment>)
    requires Contract(papers, assessments)
    ensures SelectedIds(assessments) <= PaperIds(papers)
  {
    forall id <- SelectedIds(assessments) ensures id in PaperIds(papers) {
      assert id in AssessmentIds(assessments);
    }
  }

  // ---- The gate ----

  datatype Code =
    | SummaryCoverage | UnknownReferences | UnselectedReferences | PeriodHold | InconsistentBasis
    | UnknownDate | LimitedAccess | Sparse

  datatype Checks = Checks(dates: bool, access: bool, sparse: nat)

  datatype Finding = Finding(code: Code, ids: set<string>)

  function OutsideIds(papers: seq<Paper>, included: set<string>, first: int, last: int): set<string> {
    set p | p in papers && p.id in included && p.published.Some? && !(first <= p.published.value <= last) :: p.id
  }

  function OverclaimedIds(papers: seq<Paper>, summaries: seq<Summary>): set<string> {
    set s | s in summaries && s.basis.OpenFullText? && exists p <- papers :: p.id == s.id && !p.fullText :: s.id
  }

  function UndatedIds(papers: seq<Paper>, included: set<string>): set<string> {
    set p | p in papers && p.id in included && p.published.None? :: p.id
  }

  function LimitedIds(summaries: seq<Summary>): set<string> {
    set x | x in summaries && x.basis in {AbstractOnly, MetadataOnly, Unclear} :: x.id
  }

  /** The paper is among those of a finding of this kind. */
  ghost predicate Concerns(s: Stages, c: Checks, first: int, last: int, code: Code, id: string) {
    match code
    case SummaryCoverage => IsSelected(s.assessments, id) != exists x <- s.summaries :: x.id == id
    case UnknownReferences => IsReferenced(s.trends, s.briefing, id) && forall p <- s.papers :: p.id != id
    case UnselectedReferences => IsReferenced(s.trends, s.briefing, id) && !IsSelected(s.assessments, id)
    case PeriodHold =>
      && c.dates && (IsSelected(s.assessments, id) || IsReferenced(s.trends, s.briefing, id))
      && exists p <- s.papers :: p.id == id && p.published.Some? && !(first <= p.published.value <= last)
    case UnknownDate =>
      && c.dates && (IsSelected(s.assessments, id) || IsReferenced(s.trends, s.briefing, id))
      && exists p <- s.papers :: p.id == id && p.published.None?
    case InconsistentBasis =>
      && c.access && (exists x <- s.summaries :: x.id == id && x.basis == OpenFullText)
      && exists p <- s.papers :: p.id == id && !p.fullText
    case LimitedAccess =>
      c.access && exists x <- s.summaries :: x.id == id && (x.basis == AbstractOnly || x.basis == MetadataOnly || x.basis == Unclear)
    case Sparse => |SelectedIds(s.assessments)| < c.sparse && id == "sparse"
  }

  /** Blocks delivery; the other kinds are warnings. */
  predicate IsHold(code: Code) {
    code in {SummaryCoverage, UnknownReferences, UnselectedReferences, PeriodHold, InconsistentBasis}
  }

  /** Of these kinds there is a finding exactly if there is something to find, and it names exactly that. */
  ghost predicate Exact(findings: seq<Finding>, kinds: set<Code>, s: Stages, c: Checks, first: int, last: int) {
    && (forall f <- findings :: f.code in kinds && f.ids != {} && Names(f, s, c, first, last))
    && (forall code, id :: code in kinds && Concerns(s, c, first, last, code, id) ==> exists f <- findings :: f.code == code)
  }

  ghost predicate Names(f: Finding, s: Stages, c: Checks, first: int, last: int) {
    forall id :: id in f.ids <==> Concerns(s, c, first, last, f.code, id)
  }

  /** Add a finding if there is anything to report. */
  method Note(findings: seq<Finding>, code: Code, ids: set<string>, ghost kinds: set<Code>,
              ghost s: Stages, ghost c: Checks, ghost first: int, ghost last: int)
    returns (more: seq<Finding>)
    requires Exact(findings, kinds, s, c, first, last) && Names(Finding(code, ids), s, c, first, last)
    ensures Exact(more, kinds + {code}, s, c, first, last)
  {
    hide Concerns;
    more := findings;
    if ids != {} {
      var f := Finding(code, ids);
      more := findings + [f];
      assert forall g <- findings :: g in more;
      assert more[|findings|] == f;
    } else {
      forall id ensures !Concerns(s, c, first, last, code, id) { assert id !in Finding(code, ids).ids; }
    }
  }

  lemma NothingToCheck(findings: seq<Finding>, kinds: set<Code>, more: set<Code>, s: Stages, c: Checks, first: int, last: int)
    requires Exact(findings, kinds, s, c, first, last)
    requires forall code, id :: code in more ==> !Concerns(s, c, first, last, code, id)
    ensures Exact(findings, kinds + more, s, c, first, last)
  {
    hide Concerns;
  }

  const IDENTITY_CODES := {SummaryCoverage, UnknownReferences, UnselectedReferences}
  const DATE_CODES := {PeriodHold, UnknownDate}
  const SOURCE_CODES := {LimitedAccess, InconsistentBasis, Sparse}

  method CheckIdentities(s: Stages, c: Checks, first: int, last: int) returns (findings: seq<Finding>)
    ensures Exact(findings, IDENTITY_CODES, s, c, first, last)
  {
    var selected, summarized := SelectedIds(s.assessments), SummaryIds(s.summaries);
    var references := TrendReferences(s.trends) + BriefingReferences(s.briefing);
    IdentityFindings(s, c, first, last);
    hide SelectedIds, SummaryIds, TrendReferences, BriefingReferences, PaperIds, OutsideIds, UndatedIds, Concerns, Exact, Names;
    findings := Note([], SummaryCoverage, (selected - summarized) + (summarized - selected), {}, s, c, first, last);
    findings := Note(findings, UnknownReferences, references - PaperIds(s.papers), {SummaryCoverage}, s, c, first, last);
    findings := Note(findings, UnselectedReferences, references - selected, {SummaryCoverage} + {UnknownReferences}, s, c, first, last);
    assert {SummaryCoverage} + {UnknownReferences} + {UnselectedReferences} == IDENTITY_CODES;
  }

  method CheckDates(s: Stages, c: Checks, first: int, last: int, before: seq<Finding>) returns (findings: seq<Finding>)
    requires Exact(before, IDENTITY_CODES, s, c, first, last)
    ensures Exact(findings, IDENTITY_CODES + DATE_CODES, s, c, first, last)
  {
    findings := before;
    if c.dates {
      var included := SelectedIds(s.assessments) + (TrendReferences(s.trends) + BriefingReferences(s.briefing));
      DateFindings(s, c, first, last);
      hide SelectedIds, TrendReferences, BriefingReferences, OutsideIds, UndatedIds, Concerns, Exact, Names;
      findings := Note(findings, PeriodHold, OutsideIds(s.papers, included, first, last), IDENTITY_CODES, s, c, first, last);
      findings := Note(findings, UnknownDate, UndatedIds(s.papers, included), IDENTITY_CODES + {PeriodHold}, s, c, first, last);
      assert IDENTITY_CODES + {PeriodHold} + {UnknownDate} == IDENTITY_CODES + DATE_CODES;
    } else {
      NothingToCheck(before, IDENTITY_CODES, DATE_CODES, s, c, first, last);
    }
  }

  method CheckSources(s: Stages, c: Checks, first: int, last: int, before: seq<Finding>) returns (findings: seq<Finding>)
    requires Exact(before, IDENTITY_CODES + DATE_CODES, s, c, first, last)
    ensures Exact(findings, IDENTITY_CODES + DATE_CODES + SOURCE_CODES, s, c, first, last)
  {
    ghost var kinds := IDENTITY_CODES + DATE_CODES;
    findings := before;
    if c.access {
      SourceFindings(s, c, first, last);
      findings := Note(findings, LimitedAccess, LimitedIds(s.summaries), kinds, s, c, first, last);
      findings := Note(findings, InconsistentBasis, OverclaimedIds(s.papers, s.summaries), kinds + {LimitedAccess}, s, c, first, last);
      assert kinds + {LimitedAccess} + {InconsistentBasis} == kinds + {LimitedAccess, InconsistentBasis};
    } else {
      NothingToCheck(before, kinds, {LimitedAccess, InconsistentBasis}, s, c, first, last);
    }
    kinds := kinds + {LimitedAccess, InconsistentBasis};
    assert kinds + {Sparse} == IDENTITY_CODES + DATE_CODES + SOURCE_CODES;
    if |SelectedIds(s.assessments)| < c.sparse {
      findings := Note(findings, Sparse, {"sparse"}, kinds, s, c, first, last);
    } else {
      NothingToCheck(findings, kinds, {Sparse}, s, c, first, last);
    }
  }

  /** The identity, date and source checks of the gate: every kind of finding is reported exactly if some paper is
      concerned, and names exactly the papers concerned. */
  method EvaluateQuality(s: Stages, c: Checks, first: int, last: int) returns (findings: seq<Finding>)
    requires c.dates ==> first <= last
    ensures forall f <- findings :: forall id :: id in f.ids <==> Concerns(s, c, first, last, f.code, id)
    ensures forall code, id :: Concerns(s, c, first, last, code, id) ==> exists f <- findings :: f.code == code
    ensures forall f <- findings :: f.ids != {}
  {
    hide Concerns;
    findings := CheckIdentities(s, c, first, last);
    findings := CheckDates(s, c, first, last, findings);
    findings := CheckSources(s, c, first, last, findings);
    forall f <- findings ensures forall id :: id in f.ids <==> Concerns(s, c, first, last, f.code, id) {
      assert Names(f, s, c, first, last);
    }
    forall code ensures code in IDENTITY_CODES + DATE_CODES + SOURCE_CODES { EveryCode(code); }
  }

  lemma EveryCode(code: Code)
    ensures code in IDENTITY_CODES + DATE_CODES + SOURCE_CODES
  {
    match code {
      case SummaryCoverage | UnknownReferences | UnselectedReferences => assert code in IDENTITY_CODES;
      case PeriodHold | UnknownDate => assert code in DATE_CODES;
      case InconsistentBasis | LimitedAccess | Sparse => assert code in SOURCE_CODES;
    }
  }

  lemma IdentityFindings(s: Stages, c: Checks, first: int, last: int)
    ensures var selected, summarized := SelectedIds(s.assessments), SummaryIds(s.summaries);
            var references := TrendReferences(s.trends) + BriefingReferences(s.briefing);
            && Names(Finding(SummaryCoverage, (selected - summarized) + (summarized - selected)), s, c, first, last)
            && Names(Finding(UnknownReferences, references - PaperIds(s.papers)), s, c, first, last)
            && Names(Finding(UnselectedReferences, references - selected), s, c, first, last)
            && Exact([], {}, s, c, first, last)
            && {} + {SummaryCoverage} == {SummaryCoverage}
  {
    forall id
      ensures id in SelectedIds(s.assessments) <==> IsSelected(s.assessments, id)
      ensures id in TrendReferences(s.trends) + BriefingReferences(s.briefing) <==> IsReferenced(s.trends, s.briefing, id)
    {
      SelectionIsListed(s.assessments, id);
      ReferencesAreListed(s.trends, s.briefing, id);
    }
    hide SelectedIds, TrendReferences, BriefingReferences, IsSelected, IsReferenced;
  }

  lemma DateFindings(s: Stages, c: Checks, first: int, last: int)
    requires c.dates
    ensures var included := SelectedIds(s.assessments) + (TrendReferences(s.trends) + BriefingReferences(s.briefing));
            && Names(Finding(PeriodHold, OutsideIds(s.papers, included, first, last)), s, c, first, last)
            && Names(Finding(UnknownDate, UndatedIds(s.papers, included)), s, c, first, last)
  {
    forall id
      ensures id in SelectedIds(s.assessments) <==> IsSelected(s.assessments, id)
      ensures id in TrendReferences(s.trends) + BriefingReferences(s.briefing) <==> IsReferenced(s.trends, s.briefing, id)
    {
      SelectionIsListed(s.assessments, id);
      ReferencesAreListed(s.trends, s.briefing, id);
    }
    hide SelectedIds, TrendReferences, BriefingReferences, IsSelected, IsReferenced;
  }

  lemma SourceFindings(s: Stages, c: Checks, first: int, last: int)
    requires c.access
    ensures Names(Finding(LimitedAccess, LimitedIds(s.summaries)), s, c, first, last)
    ensures Names(Finding(InconsistentBasis, OverclaimedIds(s.papers, s.summaries)), s, c, first, last)
  {
  }

  /** Passing the pipeline makes the holds unreachable: on stages the runner accepted no paper can be
      concerned by any of them, whatever the gate's settings. */
  lemma AcceptedStagesAreNeverHeld(s: Stages, c: Checks, first: int, last: int, code: Code, id: string)
    requires Accepted(s, first, last) && IsHold(code)
    ensures !Concerns(s, c, first, last, code, id)
  {
    var selected := SelectedIds(s.assessments);
    SelectedAreFound(s.papers, s.assessments);
    SelectionIsListed(s.assessments, id);
    ReferencesAreListed(s.trends, s.briefing, id);
    hide Contract, SelectedIds, TrendReferences, BriefingReferences, IsSelected, IsReferenced;
  }

  /** The whole way: a fresh run's accepted output, gated, yields no hold. */
  method RunAndGate(papers: array<Paper>, assessments: array<Assessment>, first: int, last: int, maximum: nat, size: nat,
                    outputs: seq<seq<Summary>>, documents: map<string, Document>, trends: Trends, briefing: Briefing, c: Checks)
    returns (accepted: bool, findings: seq<Finding>)
    requires Contract(papers[..], assessments[..]) && size >= 1 && forall d <- documents.Values :: ValidDocument(d)
    modifies papers, assessments
    ensures accepted ==> forall f <- findings :: !IsHold(f.code)
    ensures accepted <==> Passes(old(papers[..]), old(assessments[..]), first, last, maximum, size, outputs, documents, trends, briefing)
  {
    hide Concerns, Accepted, Contract, Passes;
    findings := [];
    var r := RunStages(papers, assessments, first, last, maximum, size, outputs, documents, trends, briefing);
    accepted := r.Ok?;
    if accepted {
      findings := EvaluateQuality(r.value, c, first, last);
      forall f <- findings ensures !IsHold(f.code) {
        var id :| id in f.ids;
        if IsHold(f.code) { AcceptedStagesAreNeverHeld(r.value, c, first, last, f.code, id); }
      }
    }
  }
}
