/** The four checkpointed stages of a research run, executed by one worker at a time.

    A worker that lost its lease is assumed to take no further stage step, because saving a stage is
    not fenced; every other failure is possible: crashes between commits, provider and validation
    errors, errors while reading back a saved checkpoint, errors inside the final transaction. */
module RunStages {
  import opened Prelude

  /** The stages in order; summaries come second. */
  const DISCOVERY := 0
  const TRENDS := 2
  const BRIEFING := 3
  const STAGES := 4

  datatype Stage = Pending | Running | Completed | Failed

  datatype Status = Queued | Executing | Done | Broken

  /** `at` is the stage the executing worker has reached; `rows` are the stages whose results have been
      inserted, which database uniqueness allows once for trends and briefing. */
  datatype State = State(stages: seq<Stage>, status: Status, at: Option<nat>, rows: set<nat>)

  /** `Save(clash)`: a repeated discovery clashes when it finds a paper again. */
  datatype Event =
    | Claim | Skip | Begin | Save(clash: bool) | Complete | Crash | Retry
    | ProviderError | CheckpointError | CompletionError

  const FRESH := State([Pending, Pending, Pending, Pending], Queued, None, {})

  function Fail(s: State, k: nat): State
    requires k < |s.stages|
  {
    State(s.stages[k := Stage.Failed], Broken, None, s.rows)
  }

  predicate Clashes(s: State, k: nat, clash: bool) {
    k in s.rows && (k == TRENDS || k == BRIEFING || (k == DISCOVERY && clash))
  }

  function FirstFailed(stages: seq<Stage>): (k: nat)
    ensures k <= |stages| && (k < |stages| ==> stages[k].Failed?)
    ensures forall i :: 0 <= i < k ==> !stages[i].Failed?
  {
    if stages == [] then 0 else if stages[0].Failed? then 0 else 1 + FirstFailed(stages[1..])
  }

  function Step(s: State, e: Event): State
    requires |s.stages| == STAGES
  {
    if e.Claim? then
      if s.status.Queued? || s.status.Executing? then s.(status := Executing, at := Some(0)) else s
    else if e.Crash? then s.(at := None)
    else if e.Retry? then
      var k := FirstFailed(s.stages);
      if !s.status.Broken? || k == STAGES then s else State(s.stages[k := Pending], Queued, None, s.rows)
    else if s.at.None? || STAGES < s.at.value then s
    else if s.at.value == STAGES then
      if e.Complete? then s.(status := Done, at := None)
      else if e.CompletionError? then Fail(s, BRIEFING)
      else s
    else Work(s, e)
  }

  /** One step of the worker inside a stage. */
  function Work(s: State, e: Event): State
    requires |s.stages| == STAGES && s.at.Some? && s.at.value < STAGES
  {
    var k := s.at.value;
    if s.stages[k].Completed? then
      if e.Skip? then s.(at := Some(k + 1))
      else if e.CheckpointError? then Fail(s, k)
      else s
    else if e.Begin? then s.(stages := s.stages[k := Running])
    else if e.ProviderError? then Fail(s, k)
    else if !e.Save? || !s.stages[k].Running? then s
    else if Clashes(s, k, e.clash) then Fail(s, k)
    else State(s.stages[k := Completed], s.status, Some(k + 1), s.rows + {k})
  }

  function Play(s: State, es: seq<Event>): (t: State)
    requires |s.stages| == STAGES
    ensures |t.stages| == STAGES
    decreases |es|
  {
    if es == [] then s else Play(Step(s, es[0]), es[1..])
  }

  // ---- Order ----

  /** How many stages are completed from the front. */
  function Finished(stages: seq<Stage>): (n: nat)
    ensures n <= |stages| && (n < |stages| ==> !stages[n].Completed?)
    ensures forall i :: 0 <= i < n ==> stages[i].Completed?
  {
    if stages == [] || !stages[0].Completed? then 0 else 1 + Finished(stages[1..])
  }

  /** Completed stages form a prefix and nothing after the first incomplete stage has been touched. */
  ghost predicate Ordered(stages: seq<Stage>) {
    forall i :: Finished(stages) < i < |stages| ==> stages[i].Pending?
  }

  ghost predicate Inv(s: State) {
    var n := Finished(s.stages);
    && |s.stages| == STAGES && Ordered(s.stages)
    && (s.status.Broken? <==> n < STAGES && s.stages[n].Failed?)
    && (s.status.Done? ==> n == STAGES)
    && (s.at.Some? ==> s.status.Executing? && s.at.value <= n)
    && (forall k :: 0 <= k < n ==> k in s.rows)
  }

  lemma FinishedIs(stages: seq<Stage>, n: nat)
    requires n <= |stages| && (forall i :: 0 <= i < n ==> stages[i].Completed?)
    requires n < |stages| ==> !stages[n].Completed?
    ensures Finished(stages) == n
  {
  }

  /** An error while reading back a saved checkpoint keeps the order exactly when that checkpoint is the
      last completed one and nothing after it was started. */
  lemma CheckpointErrorKeepsOrderIff(s: State)
    requires Inv(s) && s.at.Some? && s.at.value < STAGES && s.stages[s.at.value].Completed?
    ensures Inv(Step(s, CheckpointError)) <==>
            Finished(s.stages) == s.at.value + 1 && (s.at.value + 1 < STAGES ==> s.stages[s.at.value + 1].Pending?)
  {
    var k, t := s.at.value, Step(s, CheckpointError);
    FinishedIs(t.stages, k);
    if Inv(t) {
      if k + 1 < STAGES { assert t.stages[k + 1].Pending?; }
    }
  }

  ghost predicate Mild(s: State, e: Event)
    requires |s.stages| == STAGES
  {
    e.CheckpointError? && s.at.Some? && s.at.value < STAGES && s.stages[s.at.value].Completed? ==>
      Finished(s.stages) == s.at.value + 1 && (s.at.value + 1 < STAGES ==> s.stages[s.at.value + 1].Pending?)
  }

  ghost predicate AllMild(s: State, es: seq<Event>)
    requires |s.stages| == STAGES
    decreases |es|
  {
    es != [] ==> Mild(s, es[0]) && AllMild(Step(s, es[0]), es[1..])
  }

  lemma FailKeepsInv(s: State, k: nat)
    requires Inv(s) && k < STAGES
    requires k == Finished(s.stages) || (k + 1 == Finished(s.stages) && (k + 1 < STAGES ==> s.stages[k + 1].Pending?))
    ensures Inv(Fail(s, k))
  {
    FinishedIs(Fail(s, k).stages, k);
  }

  lemma WorkKeepsInv(s: State, e: Event)
    requires Inv(s) && Mild(s, e) && s.at.Some? && s.at.value < STAGES && !e.Claim? && !e.Crash? && !e.Retry?
    ensures Inv(Work(s, e))
  {
    var k, n, t := s.at.value, Finished(s.stages), Work(s, e);
    if s.stages[k].Completed? {
      if e.CheckpointError? { FailKeepsInv(s, k); }
    } else if e.ProviderError? || (e.Save? && s.stages[k].Running? && Clashes(s, k, e.clash)) {
      FailKeepsInv(s, k);
    } else if e.Begin? {
      FinishedIs(t.stages, n);
    } else if e.Save? && s.stages[k].Running? {
      FinishedIs(t.stages, n + 1);
    }
  }

  lemma StepKeepsInv(s: State, e: Event)
    requires Inv(s) && Mild(s, e)
    ensures Inv(Step(s, e))
  {
    hide Work;
    if e.Retry? && s.status.Broken? {
      assert FirstFailed(s.stages) == Finished(s.stages);
      FinishedIs(Step(s, e).stages, Finished(s.stages));
    } else if !e.Claim? && !e.Crash? && !e.Retry? && s.at.Some? {
      if s.at.value < STAGES { WorkKeepsInv(s, e); }
      else if e.CompletionError? { FailKeepsInv(s, BRIEFING); }
    }
  }

  /** Stage order survives recovery: through any claims, crashes, provider and validation failures,
      failures of the final transaction, retries and mild checkpoint errors. */
  lemma {:induction false} OrderSurvives(s: State, es: seq<Event>)
    requires Inv(s) && AllMild(s, es)
    ensures Inv(Play(s, es))
    decreases |es|
  {
    if es != [] {
      StepKeepsInv(s, es[0]);
      OrderSurvives(Step(s, es[0]), es[1..]);
    }
  }

  // ---- Completion ----

  /** An executing worker has every stage behind it completed; a run is done only with all of them. */
  ghost predicate Sequential(s: State) {
    && |s.stages| == STAGES
    && (s.at.Some? ==>
          s.status.Executing? && s.at.value <= STAGES && forall k :: 0 <= k < s.at.value ==> s.stages[k].Completed?)
    && (s.status.Done? ==> s.at.None? && forall k :: 0 <= k < STAGES ==> s.stages[k].Completed?)
  }

  lemma StepKeepsSequential(s: State, e: Event)
    requires Sequential(s)
    ensures Sequential(Step(s, e))
  {
  }

  lemma {:induction false} HistoryKeepsSequential(s: State, es: seq<Event>)
    requires Sequential(s)
    ensures Sequential(Play(s, es))
    decreases |es|
  {
    if es != [] {
      StepKeepsSequential(s, es[0]);
      HistoryKeepsSequential(Step(s, es[0]), es[1..]);
    }
  }

  /** A run that is reported complete has all four stages completed, in every history, also in those in
      which reading back a checkpoint broke the order. */
  lemma CompletedRunHasAllStages(es: seq<Event>)
    requires Play(FRESH, es).status.Done?
    ensures forall k :: 0 <= k < STAGES ==> Play(FRESH, es).stages[k].Completed?
  {
    HistoryKeepsSequential(FRESH, es);
  }

  // ---- Which failed runs can still be completed ----

  /** A stage that has to be saved again although its row may exist only once. */
  predicate Stuck(s: State)
    requires |s.stages| == STAGES
  {
    (TRENDS in s.rows && !s.stages[TRENDS].Completed?) || (BRIEFING in s.rows && !s.stages[BRIEFING].Completed?)
  }

  lemma {:induction false} StuckForEver(s: State, es: seq<Event>)
    requires |s.stages| == STAGES && Stuck(s) && !s.status.Done?
    requires s.at.Some? ==> s.at.value <= STAGES && forall k :: 0 <= k < s.at.value ==> s.stages[k].Completed?
    ensures !Play(s, es).status.Done?
    decreases |es|
  {
    if es != [] { StuckForEver(Step(s, es[0]), es[1..]); }
  }

  /** A stage worked through without trouble. */
  function Through(s: State): seq<Event>
    requires |s.stages| == STAGES && s.at.Some? && s.at.value < STAGES
  {
    if s.stages[s.at.value].Completed? then [Skip] else [Begin, Save(false)]
  }

  lemma {:induction false} PlayOn(s: State, es: seq<Event>, fs: seq<Event>)
    requires |s.stages| == STAGES
    ensures Play(s, es + fs) == Play(Play(s, es), fs)
    decreases |es|
  {
    if es == [] {
      assert es + fs == fs;
    } else {
      assert (es + fs)[1..] == es[1..] + fs;
      PlayOn(Step(s, es[0]), es[1..], fs);
    }
  }

  lemma ThroughAdvances(s: State)
    requires |s.stages| == STAGES && s.at.Some? && s.at.value < STAGES && !Stuck(s)
    ensures var t := Play(s, Through(s)); t.at == Some(s.at.value + 1) && !Stuck(t)
  {
    if !s.stages[s.at.value].Completed? {
      var es: seq<Event> := [Begin, Save(false)];
      assert es[1..] == [Save(false)] && es[1..][1..] == [];
      assert Play(s, es) == Play(Play(Step(s, Begin), [Save(false)]), []);
    } else {
      var es: seq<Event> := [Skip];
      assert es[1..] == [];
    }
  }

  lemma {:induction false} RestCanBeDone(s: State) returns (es: seq<Event>)
    requires |s.stages| == STAGES && s.at.Some? && s.at.value <= STAGES && !Stuck(s)
    ensures Play(s, es).status.Done?
    decreases STAGES - s.at.value
  {
    if s.at.value == STAGES {
      es := [Complete];
      assert es[1..] == [];
    } else {
      ThroughAdvances(s);
      var rest := RestCanBeDone(Play(s, Through(s)));
      es := Through(s) + rest;
      PlayOn(s, Through(s), rest);
    }
  }

  /** A failed run can be completed by retrying exactly when neither its trends nor its briefing have to
      be inserted a second time. */
  lemma RetryCanCompleteIff(s: State)
    requires Inv(s) && s.status.Broken?
    ensures (exists es :: Play(s, es).status.Done?) <==> !Stuck(s)
  {
    if Stuck(s) {
      forall es ensures !Play(s, es).status.Done? { StuckForEver(s, es); }
    } else {
      var n := Finished(s.stages);
      assert FirstFailed(s.stages) == n;
      var t := Step(Step(s, Retry), Claim);
      var rest := RestCanBeDone(t);
      var es := [Retry] + ([Claim] + rest);
      assert [Retry][1..] == [] && [Claim][1..] == [];
      PlayOn(s, [Retry], [Claim] + rest);
      PlayOn(Step(s, Retry), [Claim], rest);
      assert Play(s, es) == Play(t, rest);
    }
  }

  /** A failure inside the final transaction marks the briefing failed although it is saved, so such a
      run can never be completed again. */
  lemma CompletionErrorIsPermanent(s: State, es: seq<Event>)
    requires Inv(s) && s.at == Some(STAGES)
    ensures !Play(Step(s, CompletionError), es).status.Done?
  {
    StuckForEver(Step(s, CompletionError), es);
  }

  /** Such a failure can happen to every run: an undisturbed history leads to the final transaction. */
  lemma FinalTransactionIsReached() returns (es: seq<Event>)
    ensures Play(FRESH, es).at == Some(STAGES) && Inv(Play(FRESH, es))
  {
    es := Happened(FRESH, [], Claim);
    for k := 0 to STAGES
      invariant var s := Play(FRESH, es); Inv(s) && s.at == Some(k) && !Stuck(s) && Finished(s.stages) == k
    {
      var s := Play(FRESH, es);
      es := Happened(FRESH, es, Begin);
      es := Happened(FRESH, es, Save(false));
      hide Play;
      StageIsSaved(s, k);
    }
  }

  lemma StageIsSaved(s: State, k: nat)
    requires Inv(s) && s.at == Some(k) && k < STAGES && !Stuck(s) && Finished(s.stages) == k
    ensures var t := Step(Step(s, Begin), Save(false)); Inv(t) && t.at == Some(k + 1) && !Stuck(t) && Finished(t.stages) == k + 1
  {
    StepKeepsInv(s, Begin);
    StepKeepsInv(Step(s, Begin), Save(false));
    FinishedIs(Step(Step(s, Begin), Save(false)).stages, k + 1);
  }

  /** An error while reading a checkpoint does break the order in some history: the discovery is saved, the
      summaries are begun, the worker dies, and its successor cannot read the discovery. */
  lemma CheckpointErrorBreaksTheOrder() returns (es: seq<Event>)
    ensures Inv(Play(FRESH, es)) && !Inv(Step(Play(FRESH, es), CheckpointError))
  {
    es := Happened(FRESH, [], Claim);
    es := Happened(FRESH, es, Begin);
    es := Happened(FRESH, es, Save(false));
    es := Happened(FRESH, es, Begin);
    es := Happened(FRESH, es, Crash);
    es := Happened(FRESH, es, Claim);
    var s := Play(FRESH, es);
    assert s == State([Completed, Running, Pending, Pending], Executing, Some(0), {DISCOVERY});
    FinishedIs(s.stages, 1);
    CheckpointErrorKeepsOrderIff(s);
  }

  lemma PlayOneMore(s: State, es: seq<Event>, e: Event)
    requires |s.stages| == STAGES
    ensures Play(s, es + [e]) == Step(Play(s, es), e)
  {
    PlayOn(s, es, [e]);
    assert [e][1..] == [];
  }

  // ---- The runner ----

  /** What an execution meets: nothing fails, though discovery may find a paper again; everything it asks for fails; or
      anything at all. */
  datatype Luck = Calm(foundAgain: bool) | Failing | Any

  class Record {
    var stages: seq<Stage>
    var status: Status
    var rows: set<nat>

    ghost function Value(at: Option<nat>): State
      reads this
    {
      State(stages, status, at, rows)
    }

    constructor ()
      ensures Value(None) == FRESH && Inv(Value(None))
    {
      stages, status, rows := [Pending, Pending, Pending, Pending], Queued, {};
    }

    method MarkFailed(k: nat)
      requires k < |stages| == STAGES
      modifies this
      ensures Value(None) == Fail(old(Value(None)), k)
      ensures stages == old(stages)[k := Stage.Failed] && status == Broken && rows == old(rows)
    {
      stages, status := stages[k := Stage.Failed], Broken;
    }

    method RequeueFailed() returns (queued: bool)
      requires |stages| == STAGES
      modifies this
      ensures Value(None) == Step(old(Value(None)), Retry)
      ensures queued <==> old(status).Broken? && exists k :: 0 <= k < STAGES && old(stages)[k].Failed?
      ensures queued ==>
                && status == Queued && rows == old(rows)
                && exists k :: 0 <= k < STAGES && old(stages)[k] == Stage.Failed && stages == old(stages)[k := Pending]
                              && forall i :: 0 <= i < k ==> old(stages)[i] != Stage.Failed
      ensures !queued ==> stages == old(stages) && status == old(status) && rows == old(rows)
    {
      if !status.Broken? { return false; }
      var k := 0;
      while k < STAGES && !stages[k].Failed?
        invariant k <= STAGES && forall i :: 0 <= i < k ==> !stages[i].Failed?
      {
        k := k + 1;
      }
      FirstFailedIs(stages, k);
      if k == STAGES { return false; }
      stages, status := stages[k := Pending], Queued;
      queued := true;
    }

    /** One stage: skipped if saved, otherwise begun, requested and saved. Unless all is calm the worker may crash
        at any commit, and anything it calls may fail; `events` records what happened. */
    method ExecuteStage(ghost start: State, ghost past: seq<Event>, k: nat, luck: Luck)
      returns (passed: bool, ghost events: seq<Event>)
      requires k < STAGES == |stages| && status.Executing? && |start.stages| == STAGES
      requires Value(Some(k)) == Play(start, past)
      modifies this
      ensures |stages| == STAGES && (passed ==> status.Executing? && stages[k].Completed?)
      ensures forall i :: 0 <= i < k ==> stages[i] == old(stages)[i]
      ensures !status.Done? && past <= events && Value(if passed then Some(k + 1) else None) == Play(start, events)
      ensures luck.Calm? ==>
                if old(stages)[k] == Completed then passed && stages == old(stages) && rows == old(rows)
                else if k in old(rows) && (k == 2 || k == 3 || (k == 0 && luck.foundAgain)) then
                  !passed && stages == old(stages)[k := Stage.Failed] && status == Broken && rows == old(rows)
                else passed && stages == old(stages)[k := Completed] && rows == old(rows) + {k}
      ensures luck.Failing? ==> !passed && stages == old(stages)[k := Stage.Failed] && status == Broken && rows == old(rows)
    {
      hide Play;
      passed := false;
      var crash: bool, error: bool, clash: bool := *, *, *;
      if luck.Failing? { crash, error := false, true; }
      if luck.Calm? { crash, error, clash := false, false, luck.foundAgain; }
      if crash { events := Happened(start, past, Crash); return; }
      if stages[k].Completed? {
        if error { MarkFailed(k); events := Happened(start, past, CheckpointError); return; }
        events := Happened(start, past, Skip);
        return true, events;
      }
      stages := stages[k := Running];
      events := Happened(start, past, Begin);
      crash := *;
      if crash && luck.Any? { events := Happened(start, events, Crash); return; }
      if error { MarkFailed(k); events := Happened(start, events, ProviderError); return; }
      events := Happened(start, events, Save(clash));
      if Clashes(State(stages, status, None, rows), k, clash) { MarkFailed(k); return; }
      stages, rows := stages[k := Completed], rows + {k};
      passed := true;
    }

    /** Execute a claimed run from its checkpoints: the four stages in order, then the final transaction. If all is
        calm it completes, unless trends, briefing or a paper found again would have to be inserted twice. */
    method ExecuteRun(luck: Luck) returns (ghost events: seq<Event>)
      requires |stages| == STAGES && status.Executing?
      modifies this
      ensures Value(None) == Play(old(Value(Some(0))), events)
      ensures status.Done? ==> |stages| == STAGES && forall k :: 0 <= k < STAGES ==> stages[k].Completed?
      ensures luck.Calm? ==>
                (status == Done <==>
                  forall k :: 0 <= k < 4 && k in old(rows) && (k == 2 || k == 3 || (k == 0 && luck.foundAgain)) ==>
                    old(stages)[k] == Completed)
      ensures luck.Calm? && status != Done ==> status == Broken
    {
      ghost var start := Value(Some(0));
      events := [];
      var k := 0;
      while k < STAGES
        invariant 0 <= k <= STAGES == |stages| && status.Executing?
        invariant Value(Some(k)) == Play(start, events)
        invariant forall i :: 0 <= i < k ==> stages[i].Completed?
        invariant luck.Calm? ==> forall i :: k <= i < STAGES ==> stages[i] == old(stages)[i] && (i in rows <==> i in old(rows))
        invariant luck.Calm? ==>
                    forall i :: 0 <= i < k && i in old(rows) && (i == 2 || i == 3 || (i == 0 && luck.foundAgain)) ==>
                      old(stages)[i] == Completed
      {
        var passed: bool;
        passed, events := ExecuteStage(start, events, k, luck);
        if !passed { return; }
        k := k + 1;
      }
      var crash: bool, error: bool := *, *;
      if luck.Calm? { crash, error := false, false; }
      if crash { events := Happened(start, events, Crash); return; }
      if error { MarkFailed(BRIEFING); events := Happened(start, events, CompletionError); return; }
      status := Done;
      events := Happened(start, events, Complete);
    }
  }

  lemma Happened(s: State, es: seq<Event>, e: Event) returns (more: seq<Event>)
    requires |s.stages| == STAGES
    ensures more == es + [e] && Play(s, more) == Step(Play(s, es), e)
  {
    more := es + [e];
    PlayOneMore(s, es, e);
  }

  lemma FirstFailedIs(stages: seq<Stage>, k: nat)
    requires k <= |stages| && (forall i :: 0 <= i < k ==> !stages[i].Failed?)
    requires k < |stages| ==> stages[k].Failed?
    ensures FirstFailed(stages) == k
  {
  }
}
