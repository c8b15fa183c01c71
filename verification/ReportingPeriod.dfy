/** The mandatory date rule: discovered papers published outside the reporting period stay visible but are
    never selected. It edits the discovery output in place. */
module ReportingPeriod {
  import opened Prelude

  datatype Advice = Summarize | MentionBriefly | Archive | Reject

  datatype Placement = TopPaper | Contribution | TrendSignal | Background | Niche | ArchiveOnly | Rejected

  datatype Note = Original(text: string) | OutOfPeriod(published: int, first: int, last: int)

  datatype Paper = Paper(id: string, published: Option<int>, fullText: bool, warnings: seq<Note>)

  /** `rationale` lists what was put before the original wording. */
  datatype Assessment = Assessment(id: string, advice: Advice, placement: Placement, caveats: seq<Note>, rationale: seq<Note>)

  /** The note a paper earns, if its publication date is known and outside the interval. */
  function NoteFor(p: Paper, first: int, last: int): Option<Note> {
    if p.published.None? || first <= p.published.value <= last then None
    else Some(OutOfPeriod(p.published.value, first, last))
  }

  function MarkPaper(p: Paper, note: Option<Note>): Paper {
    if note.None? || note.value in p.warnings then p else p.(warnings := p.warnings + [note.value])
  }

  function MarkAssessment(a: Assessment, note: Option<Note>): Assessment {
    if note.None? then a
    else if note.value in a.caveats then a.(advice := Reject, placement := Rejected)
    else Assessment(a.id, Reject, Rejected, a.caveats + [note.value], [note.value] + a.rationale)
  }

  /** The note for an identifier among these papers. */
  function NoteOf(papers: seq<Paper>, id: string, first: int, last: int): Option<Note>
    decreases |papers|
  {
    if papers == [] then None
    else if papers[|papers| - 1].id == id then NoteFor(papers[|papers| - 1], first, last)
    else NoteOf(papers[..|papers| - 1], id, first, last)
  }

  predicate UniquePapers(papers: seq<Paper>) {
    forall i, j :: 0 <= i < j < |papers| ==> papers[i].id != papers[j].id
  }

  predicate UniqueAssessments(assessments: seq<Assessment>) {
    forall i, j :: 0 <= i < j < |assessments| ==> assessments[i].id != assessments[j].id
  }

  function PaperIds(papers: seq<Paper>): set<string> { set p | p in papers :: p.id }

  function AssessmentIds(assessments: seq<Assessment>): set<string> { set a | a in assessments :: a.id }

  /** Every paper has exactly one assessment and the other way round. */
  predicate Contract(papers: seq<Paper>, assessments: seq<Assessment>) {
    UniquePapers(papers) && UniqueAssessments(assessments) && PaperIds(papers) == AssessmentIds(assessments)
  }

  function MarkPapers(papers: seq<Paper>, first: int, last: int): seq<Paper> {
    seq(|papers|, i requires 0 <= i < |papers| => MarkPaper(papers[i], NoteFor(papers[i], first, last)))
  }

  function MarkAssessments(assessments: seq<Assessment>, papers: seq<Paper>, first: int, last: int): seq<Assessment> {
    seq(|assessments|, j requires 0 <= j < |assessments| =>
      MarkAssessment(assessments[j], NoteOf(papers, assessments[j].id, first, last)))
  }

  lemma {:induction false} NoteOfPaper(papers: seq<Paper>, i: nat, first: int, last: int)
    requires UniquePapers(papers) && i < |papers|
    ensures NoteOf(papers, papers[i].id, first, last) == NoteFor(papers[i], first, last)
    decreases |papers|
  {
    if i < |papers| - 1 { NoteOfPaper(papers[..|papers| - 1], i, first, last); }
  }

  lemma {:induction false} NoNoteYet(papers: seq<Paper>, id: string, first: int, last: int)
    requires forall p <- papers :: p.id != id
    ensures NoteOf(papers, id, first, last) == None
    decreases |papers|
  {
    if papers != [] {
      assert papers[|papers| - 1] in papers;
      NoNoteYet(papers[..|papers| - 1], id, first, last);
    }
  }

  /** Reject one assessment with a reason, noting the reason once. */
  method RejectOne(assessments: array<Assessment>, id: string, reason: Note) returns (k: nat)
    requires id in AssessmentIds(assessments[..])
    modifies assessments
    ensures k < assessments.Length && old(assessments[k].id) == id
    ensures var a := old(assessments[k]);
            assessments[..] == old(assessments[..])[k :=
              if reason in a.caveats then a.(advice := Reject, placement := Rejected)
              else Assessment(a.id, Reject, Rejected, a.caveats + [reason], [reason] + a.rationale)]
    ensures assessments[..] == old(assessments[..])[k := MarkAssessment(old(assessments[k]), Some(reason))]
  {
    k := 0;
    while k < assessments.Length && assessments[k].id != id
      invariant k <= assessments.Length && forall i :: 0 <= i < k ==> assessments[i].id != id
    {
      k := k + 1;
    }
    var a := assessments[k].(advice := Reject, placement := Rejected);
    if reason !in a.caveats { a := a.(caveats := a.caveats + [reason], rationale := [reason] + a.rationale); }
    assessments[k] := a;
  }

  /** The assessments after the rule has looked at the first `i` papers. */
  ghost predicate MarkedUpTo(was: seq<Paper>, rated: seq<Assessment>, now: seq<Assessment>, i: nat, first: int, last: int)
    requires i <= |was|
  {
    && |now| == |rated|
    && forall j :: 0 <= j < |rated| ==> now[j] == MarkAssessment(rated[j], NoteOf(was[..i], rated[j].id, first, last))
  }

  lemma NextPaper(was: seq<Paper>, i: nat, first: int, last: int)
    requires i < |was| && UniquePapers(was)
    ensures NoteOf(was[..i], was[i].id, first, last) == None
    ensures forall id :: NoteOf(was[..i + 1], id, first, last) ==
              if was[i].id == id then NoteFor(was[i], first, last) else NoteOf(was[..i], id, first, last)
  {
    NoNoteYet(was[..i], was[i].id, first, last);
    assert was[..i + 1][..i] == was[..i];
  }

  lemma NothingToMark(was: seq<Paper>, rated: seq<Assessment>, now: seq<Assessment>, i: nat, first: int, last: int)
    requires i < |was| && UniquePapers(was) && MarkedUpTo(was, rated, now, i, first, last) && NoteFor(was[i], first, last).None?
    ensures MarkedUpTo(was, rated, now, i + 1, first, last)
  {
    NextPaper(was, i, first, last);
    hide NoteOf, NoteFor, MarkAssessment, UniquePapers;
  }

  lemma Marked(was: seq<Paper>, rated: seq<Assessment>, now: seq<Assessment>, i: nat, k: nat, first: int, last: int)
    requires i < |was| && UniquePapers(was) && UniqueAssessments(rated) && MarkedUpTo(was, rated, now, i, first, last)
    requires k < |now| && now[k].id == was[i].id
    ensures MarkedUpTo(was, rated, now[k := MarkAssessment(now[k], NoteFor(was[i], first, last))], i + 1, first, last)
  {
    NextPaper(was, i, first, last);
    hide NoteOf, NoteFor, UniquePapers;
    assert now[k] == rated[k];
    forall j | 0 <= j < |rated| && j != k ensures rated[j].id != was[i].id {}
  }

  method ExcludeOutOfPeriod(papers: array<Paper>, assessments: array<Assessment>, first: int, last: int) returns (valid: bool)
    requires Contract(papers[..], assessments[..])
    modifies papers, assessments
    ensures valid <==> first <= last
    ensures valid ==> papers[..] == MarkPapers(old(papers[..]), first, last)
    ensures valid ==> assessments[..] == MarkAssessments(old(assessments[..]), old(papers[..]), first, last)
    ensures !valid ==> papers[..] == old(papers[..]) && assessments[..] == old(assessments[..])
  {
    valid := first <= last;
    if !valid { return; }
    ghost var was, rated := papers[..], assessments[..];
    for i := 0 to papers.Length
      invariant forall n :: 0 <= n < i ==> papers[n] == MarkPaper(was[n], NoteFor(was[n], first, last))
      invariant forall n :: i <= n < papers.Length ==> papers[n] == was[n]
      invariant MarkedUpTo(was, rated, assessments[..], i, first, last)
    {
      hide MarkedUpTo, Contract, UniquePapers, UniqueAssessments, NoteOf, MarkAssessment, AssessmentIds;
      Parts(was, rated);
      var p := papers[i];
      ghost var now := assessments[..];
      if p.published.None? || first <= p.published.value <= last {
        NothingToMark(was, rated, now, i, first, last);
        continue;
      }
      var reason := OutOfPeriod(p.published.value, first, last);
      HasAssessment(was, rated, now, i, first, last);
      var k := RejectOne(assessments, p.id, reason);
      Marked(was, rated, now, i, k, first, last);
      if reason !in p.warnings { papers[i] := p.(warnings := p.warnings + [reason]); }
    }
    assert was[..papers.Length] == was;
  }

  lemma Parts(papers: seq<Paper>, assessments: seq<Assessment>)
    requires Contract(papers, assessments)
    ensures UniquePapers(papers) && UniqueAssessments(assessments)
  {
  }

  lemma SameAssessmentIds(a: seq<Assessment>, b: seq<Assessment>)
    requires |a| == |b| && forall j :: 0 <= j < |a| ==> a[j].id == b[j].id
    ensures AssessmentIds(a) == AssessmentIds(b)
  {
    forall id ensures id in AssessmentIds(a) <==> id in AssessmentIds(b) {
      if id in AssessmentIds(a) { var j :| 0 <= j < |a| && a[j].id == id; assert b[j] in b; }
      if id in AssessmentIds(b) { var j :| 0 <= j < |b| && b[j].id == id; assert a[j] in a; }
    }
  }

  lemma SamePaperIds(a: seq<Paper>, b: seq<Paper>)
    requires |a| == |b| && forall j :: 0 <= j < |a| ==> a[j].id == b[j].id
    ensures PaperIds(a) == PaperIds(b)
  {
    forall id ensures id in PaperIds(a) <==> id in PaperIds(b) {
      if id in PaperIds(a) { var j :| 0 <= j < |a| && a[j].id == id; assert b[j] in b; }
      if id in PaperIds(b) { var j :| 0 <= j < |b| && b[j].id == id; assert a[j] in a; }
    }
  }

  lemma HasAssessment(was: seq<Paper>, rated: seq<Assessment>, now: seq<Assessment>, i: nat, first: int, last: int)
    requires Contract(was, rated) && i < |was| && MarkedUpTo(was, rated, now, i, first, last)
    ensures was[i].id in AssessmentIds(now)
  {
    assert was[i] in was;
    SameAssessmentIds(rated, now);
  }

  // ---- What the rule guarantees ----

  predicate Selected(a: Assessment) { a.advice.Summarize? || a.advice.MentionBriefly? }

  /** Identities, order and dates are untouched, so the output still meets its contract. */
  lemma RuleKeepsIdentities(papers: seq<Paper>, assessments: seq<Assessment>, first: int, last: int)
    requires Contract(papers, assessments)
    ensures var marked, rated := MarkPapers(papers, first, last), MarkAssessments(assessments, papers, first, last);
            && |marked| == |papers| && |rated| == |assessments|
            && (forall i :: 0 <= i < |papers| ==>
                  marked[i].id == papers[i].id && marked[i].published == papers[i].published && marked[i].fullText == papers[i].fullText)
            && (forall j :: 0 <= j < |assessments| ==> rated[j].id == assessments[j].id)
            && Contract(marked, rated)
  {
    var marked, rated := MarkPapers(papers, first, last), MarkAssessments(assessments, papers, first, last);
    RulePieces(papers, assessments, first, last);
    hide MarkPapers, MarkAssessments, PaperIds, AssessmentIds;
    SamePaperIds(papers, marked);
    SameAssessmentIds(assessments, rated);
  }

  lemma RulePieces(papers: seq<Paper>, assessments: seq<Assessment>, first: int, last: int)
    ensures var marked, rated := MarkPapers(papers, first, last), MarkAssessments(assessments, papers, first, last);
            && |marked| == |papers| && |rated| == |assessments|
            && (forall i :: 0 <= i < |papers| ==>
                  marked[i].id == papers[i].id && marked[i].published == papers[i].published && marked[i].fullText == papers[i].fullText)
            && (forall j :: 0 <= j < |assessments| ==> rated[j].id == assessments[j].id)
  {
    hide NoteOf, NoteFor;
  }

  lemma {:induction false} SameNotes(papers: seq<Paper>, marked: seq<Paper>, id: string, first: int, last: int)
    requires |marked| == |papers|
    requires forall i :: 0 <= i < |papers| ==> marked[i].id == papers[i].id && marked[i].published == papers[i].published
    ensures NoteOf(marked, id, first, last) == NoteOf(papers, id, first, last)
    decreases |papers|
  {
    if papers != [] { SameNotes(papers[..|papers| - 1], marked[..|papers| - 1], id, first, last); }
  }

  /** Applying the rule twice is applying it once. */
  lemma RuleIsIdempotent(papers: seq<Paper>, assessments: seq<Assessment>, first: int, last: int)
    requires Contract(papers, assessments)
    ensures var marked, rated := MarkPapers(papers, first, last), MarkAssessments(assessments, papers, first, last);
            MarkPapers(marked, first, last) == marked && MarkAssessments(rated, marked, first, last) == rated
  {
    var marked, rated := MarkPapers(papers, first, last), MarkAssessments(assessments, papers, first, last);
    RulePieces(papers, assessments, first, last);
    forall j | 0 <= j < |rated| ensures NoteOf(marked, rated[j].id, first, last) == NoteOf(papers, assessments[j].id, first, last) {
      SameNotes(papers, marked, assessments[j].id, first, last);
    }
    hide NoteOf, Contract;
  }

  /** A paper without a date, or dated in the period with its first and last day, stays as it is together with its
      assessment; any other is rejected, and both carry the reason once. */
  lemma RuleIsExact(papers: seq<Paper>, assessments: seq<Assessment>, first: int, last: int, i: nat, j: nat)
    requires Contract(papers, assessments) && i < |papers| && j < |assessments| && papers[i].id == assessments[j].id
    ensures var p, a := papers[i], assessments[j];
            var marked, rated := MarkPapers(papers, first, last)[i], MarkAssessments(assessments, papers, first, last)[j];
            if p.published.None? || first <= p.published.value <= last then marked == p && rated == a
            else
              var note := OutOfPeriod(p.published.value, first, last);
              && marked == p.(warnings := if note in p.warnings then p.warnings else p.warnings + [note])
              && rated == (if note in a.caveats then a.(advice := Reject, placement := Rejected)
                           else Assessment(a.id, Reject, Rejected, a.caveats + [note], [note] + a.rationale))
  {
    NoteOfPaper(papers, i, first, last);
  }

  /** No selected paper has a known date outside the period. */
  lemma SelectedAreInPeriod(papers: seq<Paper>, assessments: seq<Assessment>, first: int, last: int, i: nat, j: nat)
    requires Contract(papers, assessments) && i < |papers| && j < |assessments| && papers[i].id == assessments[j].id
    requires Selected(MarkAssessments(assessments, papers, first, last)[j])
    ensures papers[i].published.Some? ==> first <= papers[i].published.value <= last
  {
    NoteOfPaper(papers, i, first, last);
  }
}
