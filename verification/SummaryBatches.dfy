/** Summarising the selected papers in fixed-size batches that survive interruption.

    Between two executions the only memory is the saved stage row. One worker executes at a time. */
module SummaryBatches {
  import opened Prelude

  predicate SameIds(a: seq<string>, b: seq<string>) {
    (forall x <- a :: x in b) && (forall x <- b :: x in a)
  }

  function Least(a: nat, b: nat): nat { if a < b then a else b }

  /** The saved stage row. `active` stands for the provider response still to be collected, tagged with
      the batch it was asked for; `accepted` counts the recorded batch responses. */
  datatype Row = Row(saved: seq<string>, active: Option<seq<string>>, accepted: nat, current: nat, total: nat, completed: bool)

  const UNTOUCHED := Row([], None, 0, 0, 1, false)

  /** Papers without a saved summary, in discovery order. */
  function Remaining(papers: seq<string>, saved: seq<string>): seq<string> {
    if papers == [] then []
    else (if papers[0] in saved then [] else [papers[0]]) + Remaining(papers[1..], saved)
  }

  /** The batch a resumed worker asks for first. */
  function NextBatch(papers: seq<string>, saved: seq<string>, size: nat): seq<string> {
    var left := Remaining(papers, saved);
    left[..Least(size, |left|)]
  }

  /** How many papers the accepted batches cover, unless they run out first. */
  function Covered(n: nat, size: nat, accepted: nat): nat { Least(n, size * accepted) }

  lemma NextCovered(n: nat, size: nat, accepted: nat)
    requires Covered(n, size, accepted) < n && size >= 1
    ensures Covered(n, size, accepted + 1) == Covered(n, size, accepted) + Least(size, n - Covered(n, size, accepted))
    ensures size * (accepted + 1) < n + size
  {
    assert size * (accepted + 1) == size * accepted + size;
  }

  /** What the row looks like after any number of interruptions. */
  ghost predicate Valid(papers: seq<string>, size: nat, r: Row) {
    var done := Covered(|papers|, size, r.accepted);
    && Distinct(papers) && size >= 1
    && Distinct(r.saved) && |r.saved| == done && SameIds(r.saved, papers[..done])
    && size * r.accepted < |papers| + size
    && (r.active.Some? ==> done < |papers| && r.active.value == NextBatch(papers, r.saved, size))
    && r.current <= r.total
    && (r.completed ==> done == |papers| && r.current == r.total == |papers|)
  }

  lemma {:induction false} RemainingNone(papers: seq<string>, saved: seq<string>)
    requires forall x <- papers :: x !in saved
    ensures Remaining(papers, saved) == papers
  {
    if papers != [] { RemainingNone(papers[1..], saved); }
  }

  lemma {:induction false} SkipSaved(papers: seq<string>, saved: seq<string>, done: nat)
    requires done <= |papers|
    requires forall k :: 0 <= k < done ==> papers[k] in saved
    requires forall k :: done <= k < |papers| ==> papers[k] !in saved
    ensures Remaining(papers, saved) == papers[done..]
    decreases done
  {
    if done == 0 {
      RemainingNone(papers, saved);
    } else {
      SkipSaved(papers[1..], saved, done - 1);
    }
  }

  /** What is left after a prefix has been summarised, in whatever order, is the rest. */
  lemma RemainingIsTheRest(papers: seq<string>, saved: seq<string>, done: nat)
    requires Distinct(papers) && done <= |papers| && SameIds(saved, papers[..done])
    ensures Remaining(papers, saved) == papers[done..]
  {
    forall k | 0 <= k < done ensures papers[k] in saved { assert papers[..done][k] == papers[k]; }
    SkipSaved(papers, saved, done);
  }

  lemma {:induction false} UniqueSize(ids: seq<string>)
    requires Distinct(ids)
    ensures |ToSet(ids)| == |ids|
  {
    if ids != [] {
      UniqueSize(ids[1..]);
      assert ToSet(ids) == {ids[0]} + ToSet(ids[1..]);
    }
  }

  /** An accepted response has exactly one summary for each paper of its batch. */
  lemma AcceptedSize(output: seq<string>, batch: seq<string>)
    requires Distinct(output) && Distinct(batch) && SameIds(output, batch)
    ensures |output| == |batch|
  {
    UniqueSize(output);
    UniqueSize(batch);
    assert ToSet(output) == ToSet(batch);
  }

  /** Appending a batch in whatever order its summaries came. */
  lemma AppendBatch(papers: seq<string>, saved: seq<string>, output: seq<string>, done: nat, next: nat)
    requires Distinct(papers) && done <= next <= |papers|
    requires Distinct(saved) && SameIds(saved, papers[..done])
    requires Distinct(output) && SameIds(output, papers[done..next])
    ensures Distinct(saved + output) && SameIds(saved + output, papers[..next])
  {
    var both, all, batch := saved + output, papers[..next], papers[done..next];
    assert all == papers[..done] + batch;
    forall x <- both ensures x in all { assert x in saved || x in output; }
    forall x <- all ensures x in both { assert x in papers[..done] || x in batch; }
    forall i, j | 0 <= i < |saved| && 0 <= j < |output| ensures saved[i] != output[j] {
      assert saved[i] in papers[..done] && output[j] in batch;
      var k :| 0 <= k < done && papers[k] == saved[i];
      var l :| 0 <= l < |batch| && batch[l] == output[j];
      assert papers[k] != papers[done + l];
    }
  }

  lemma AcceptedBatch(papers: seq<string>, saved: seq<string>, size: nat, output: seq<string>)
    requires Distinct(papers) && Distinct(saved) && |saved| <= |papers| && SameIds(saved, papers[..|saved|])
    requires Distinct(output) && SameIds(output, NextBatch(papers, saved, size))
    ensures |output| == Least(size, |papers| - |saved|)
    ensures Distinct(saved + output) && SameIds(saved + output, papers[..|saved + output|])
  {
    var done := |saved|;
    RemainingIsTheRest(papers, saved, done);
    var next := done + Least(size, |papers| - done);
    assert NextBatch(papers, saved, size) == papers[done..next];
    hide NextBatch, Remaining;
    PartUnique(papers, done, next);
    AcceptedSize(output, papers[done..next]);
    AppendBatch(papers, saved, output, done, next);
  }

  /** Saving an accepted response: the next `size` papers, or the rest, are done. */
  lemma AcceptKeepsValid(papers: seq<string>, size: nat, r: Row, output: seq<string>)
    requires Valid(papers, size, r) && !r.completed && r.total == |papers|
    requires |r.saved| < |papers|
    requires Distinct(output) && SameIds(output, NextBatch(papers, r.saved, size))
    ensures Valid(papers, size, Row(r.saved + output, None, r.accepted + 1, |r.saved + output|, |papers|, false))
  {
    hide Distinct, SameIds, NextBatch;
    AcceptedBatch(papers, r.saved, size, output);
    NextCovered(|papers|, size, r.accepted);
    hide Covered;
  }

  lemma PartUnique(papers: seq<string>, from: nat, to: nat)
    requires Distinct(papers) && from <= to <= |papers|
    ensures Distinct(papers[from..to])
  {
  }

  /** The stage ends with one summary per selected paper and the least possible number of accepted
      batches, however often it was interrupted. */
  lemma CompletedExactly(papers: seq<string>, size: nat, r: Row)
    requires Valid(papers, size, r) && r.completed
    ensures multiset(r.saved) == multiset(papers)
    ensures r.accepted == (|papers| + size - 1) / size
    ensures r.active.None? && r.current == r.total == |papers|
  {
    assert papers[..|papers|] == papers;
    UniqueMultiset(r.saved);
    UniqueMultiset(papers);
    assert ToSet(r.saved) == ToSet(papers);
    CeilingIs(|papers|, size, r.accepted);
  }

  lemma MultiplesApart(size: nat, a: nat, b: nat)
    requires a < b
    ensures size * a + size <= size * b
  {
    assert size * b == size * a + size * (b - a);
    assert size * (b - a) == size + size * (b - a - 1);
  }

  lemma CeilingIs(n: nat, size: nat, a: nat)
    requires size >= 1 && n <= size * a < n + size
    ensures a == (n + size - 1) / size
  {
    var q := (n + size - 1) / size;
    assert size * q <= n + size - 1 < size * q + size;
    if a < q { MultiplesApart(size, a, q); }
    if q < a { MultiplesApart(size, q, a); }
  }

  lemma {:induction false} UniqueMultiset(ids: seq<string>)
    requires Distinct(ids)
    ensures multiset(ids) == multiset(ToSet(ids))
  {
    if ids != [] {
      UniqueMultiset(ids[1..]);
      assert ids == [ids[0]] + ids[1..];
      assert ToSet(ids) == {ids[0]} + ToSet(ids[1..]);
    }
  }

  // ---- The stage as the runner executes it ----

  /** There is exactly one summary for each paper of the batch, and none for any other. */
  ghost predicate OnePerPaper(output: seq<string>, batch: seq<string>) {
    (forall i, j :: 0 <= i < j < |output| ==> output[i] != output[j]) && forall x :: x in output <==> x in batch
  }

  datatype Reply = Collected(output: seq<string>) | Interrupted

  class SummaryStage {
    const papers: seq<string>
    const size: nat
    var row: Row

    constructor (papers: seq<string>, size: nat)
      requires Distinct(papers) && size >= 1
      ensures this.papers == papers && this.size == size && row == UNTOUCHED
      ensures Valid(papers, size, row)
    {
      this.papers, this.size, row := papers, size, UNTOUCHED;
    }

    /** Ask for a batch, or collect the response asked for before. Nothing is known about the answer, unless it is
        the one given. */
    method Request(batch: seq<string>, answer: Option<seq<string>>) returns (reply: Reply)
      requires Valid(papers, size, row) && !row.completed
      requires |row.saved| < |papers| && batch == NextBatch(papers, row.saved, size)
      modifies this
      ensures Valid(papers, size, row)
      ensures row == old(row).(active := row.active)
      ensures reply.Collected? ==> row.active == Some(batch)
      ensures answer.Some? ==> reply == Collected(answer.value)
    {
      if answer.Some? {
        row := row.(active := Some(batch));
        return Collected(answer.value);
      }
      var lost: bool, failed: bool, output: seq<string> := *, *, *;
      if row.active.Some? {
        if failed { return Interrupted; }
        if lost { row := row.(active := None); }
      }
      if row.active.None? {
        failed := *;
        if failed { return Interrupted; }
        row := row.(active := Some(batch));
      }
      failed := *;
      if failed { return Interrupted; }
      lost := *;
      if lost {
        row := row.(active := None);
        return Interrupted;
      }
      reply := Collected(output);
    }

    /** Request a batch and save it if the response has exactly one summary for each of its papers. */
    method ExecuteBatch(batch: seq<string>, answer: Option<seq<string>>) returns (accepted: bool)
      requires Valid(papers, size, row) && !row.completed && row.total == |papers|
      requires |row.saved| < |papers| && batch == NextBatch(papers, row.saved, size)
      modifies this
      ensures Valid(papers, size, row) && !row.completed && row.total == |papers|
      ensures old(row.saved) <= row.saved && (old(row.current) == |old(row.saved)| ==> row.current == |row.saved|)
      ensures |row.saved| == |old(row.saved)| + if accepted then |batch| else 0
      ensures row.accepted == old(row.accepted) + if accepted then 1 else 0
      ensures !accepted ==> row.saved == old(row.saved)
      ensures answer.Some? ==>
                && (accepted <==> OnePerPaper(answer.value, batch))
                && (accepted ==> row.saved == old(row.saved) + answer.value)
                && row.active.None?
    {
      hide NextBatch;
      var reply := Request(batch, answer);
      if reply.Interrupted? { return false; }
      if !Distinct(reply.output) || !SameIds(reply.output, batch) {
        row := row.(active := None);
        return false;
      }
      RemainingIsTheRest(papers, row.saved, |row.saved|);
      BatchUnique(papers, row.saved, size, |row.saved|);
      AcceptedSize(reply.output, batch);
      AcceptKeepsValid(papers, size, row, reply.output);
      row := Row(row.saved + reply.output, None, row.accepted + 1, |row.saved + reply.output|, |papers|, false);
      accepted := true;
    }

    /** The batch that starts at this position of what remained at first. */
    method ExecuteSlice(remaining: seq<string>, ghost first: nat, start: nat, calm: bool) returns (accepted: bool)
      requires Valid(papers, size, row) && !row.completed && row.total == |papers| && row.current == |row.saved|
      requires first <= |papers| && remaining == papers[first..] && start < |remaining| && |row.saved| == first + start
      modifies this
      ensures Valid(papers, size, row) && !row.completed && row.total == |papers| && row.current == |row.saved|
      ensures old(row.saved) <= row.saved && old(row.accepted) <= row.accepted
      ensures accepted ==> |row.saved| == first + Least(start + size, |remaining|)
      ensures calm ==> accepted
    {
      SavedFit(papers, size, row);
      SliceIsNext(papers, size, row, first, start);
      NextIsUnique(papers, size, row);
      hide NextBatch, Orderly, OnePerPaper, Distinct, Valid;
      var batch := remaining[start..Least(start + size, |remaining|)];
      var output: seq<string> := *;
      OrderlyAnswer(output, batch);
      accepted := ExecuteBatch(batch, if calm then Some(Orderly(output, batch)) else None);
    }

    /** One execution of the stage, from whatever an earlier one left behind. It finishes if all is `calm`: nothing
        fails, and the provider answers as it was asked to. */
    method Execute(calm: bool) returns (finished: bool)
      requires Valid(papers, size, row) && !row.completed
      modifies this
      ensures Valid(papers, size, row)
      ensures finished <==> row.completed
      ensures row.total == |papers| && row.current == |row.saved|
      ensures old(row.saved) <= row.saved && old(row.accepted) <= row.accepted
      ensures calm ==> finished
    {
      SavedFit(papers, size, row);
      row := row.(current := |row.saved|, total := |papers|);
      finished := false;
      var failed: bool := *;
      if failed && !calm { return; }
      var remaining := Remaining(papers, row.saved);
      ghost var first := |row.saved|;
      RemainingIsTheRest(papers, row.saved, first);
      hide Remaining, Distinct, Valid;
      var start := 0;
      while start < |remaining|
        invariant Valid(papers, size, row) && !row.completed && row.total == |papers| && row.current == |row.saved|
        invariant remaining == papers[first..]
        invariant start < |remaining| ==> |row.saved| == first + start
        invariant start >= |remaining| ==> |row.saved| == |papers|
        invariant old(row.saved) <= row.saved && old(row.accepted) <= row.accepted
        decreases |remaining| - start
      {
        var accepted := ExecuteSlice(remaining, first, start, calm);
        if !accepted { return; }
        start := start + size;
        failed := *;
        if failed && !calm { return; }
      }
      AllDone(papers, size, row);
      row := row.(completed := true, current := |papers|, total := |papers|);
      finished := true;
    }
  }

  lemma BatchUnique(papers: seq<string>, saved: seq<string>, size: nat, done: nat)
    requires Distinct(papers) && done <= |papers| && Remaining(papers, saved) == papers[done..]
    ensures Distinct(NextBatch(papers, saved, size))
  {
  }

  lemma NextIsUnique(papers: seq<string>, size: nat, r: Row)
    requires Valid(papers, size, r) && |r.saved| <= |papers|
    ensures Distinct(NextBatch(papers, r.saved, size))
  {
    RemainingIsTheRest(papers, r.saved, |r.saved|);
  }

  /** What a provider answers that does as it is asked: one summary for each paper of the batch, in any order. */
  function Orderly(output: seq<string>, batch: seq<string>): seq<string> {
    if Distinct(output) && SameIds(output, batch) then output else batch
  }

  lemma OrderlyAnswer(output: seq<string>, batch: seq<string>)
    requires Distinct(batch)
    ensures OnePerPaper(Orderly(output, batch), batch)
  {
  }

  /** The slice the loop takes is the batch a fresh execution would ask for. */
  lemma SliceIsNext(papers: seq<string>, size: nat, r: Row, first: nat, start: nat)
    requires Valid(papers, size, r) && |r.saved| == first + start <= |papers|
    ensures papers[first..][start..Least(start + size, |papers| - first)] == NextBatch(papers, r.saved, size)
  {
    RemainingIsTheRest(papers, r.saved, first + start);
  }

  lemma AllDone(papers: seq<string>, size: nat, r: Row)
    requires Valid(papers, size, r) && |r.saved| == |papers|
    ensures Valid(papers, size, r.(completed := true, current := |papers|, total := |papers|))
  {
  }

  lemma SavedFit(papers: seq<string>, size: nat, r: Row)
    requires Valid(papers, size, r)
    ensures |r.saved| <= |papers| && size >= 1 && (r.current <= r.total)
    ensures Valid(papers, size, r.(completed := false, current := |r.saved|, total := |papers|))
  {
  }

  /** Executions one after the other, each interrupted anywhere, until one finishes or nobody retries. It finishes at
      the latest with the first that is not interrupted. */
  method RunWithRetries(stage: SummaryStage, executions: nat, calm: nat) returns (finished: bool)
    requires Valid(stage.papers, stage.size, stage.row) && !stage.row.completed
    modifies stage
    ensures Valid(stage.papers, stage.size, stage.row) && (finished <==> stage.row.completed)
    ensures finished ==> multiset(stage.row.saved) == multiset(stage.papers)
    ensures finished ==> stage.row.accepted == (|stage.papers| + stage.size - 1) / stage.size
    ensures finished ==> stage.row.current == stage.row.total == |stage.papers| && stage.row.active.None?
    ensures calm < executions ==> finished
  {
    hide Valid;
    finished := false;
    for n := 0 to executions
      invariant !finished && Valid(stage.papers, stage.size, stage.row) && !stage.row.completed && n <= calm
    {
      finished := stage.Execute(n == calm);
      if finished {
        CompletedExactly(stage.papers, stage.size, stage.row);
        return;
      }
    }
  }
}
