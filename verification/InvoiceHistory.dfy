/** Reading a subscription's invoice history one bounded page at a time, across many reconciliations.

    The provider lists invoices newest first. Between two reconciliations it may put new ones in front;
    nothing in the list is removed or reordered. */
module InvoiceHistory {
  import opened Prelude

  const PAGE := 100

  /** How far the history has been read, and which invoices have been observed. */
  datatype Progress = Progress(cursor: Option<nat>, complete: bool, observed: set<nat>)

  const UNREAD := Progress(None, false, {})

  ghost function IndexOf(list: seq<nat>, id: nat): (i: nat)
    requires id in list
    ensures i < |list| && list[i] == id
  {
    var k: nat :| k < |list| && list[k] == id;
    k
  }

  /** What follows an invoice in the list. */
  ghost function After(list: seq<nat>, cursor: Option<nat>): seq<nat>
    requires cursor.Some? ==> cursor.value in list
  {
    if cursor.None? then list else list[IndexOf(list, cursor.value) + 1..]
  }

  function FirstPage(list: seq<nat>): seq<nat> { if |list| <= PAGE then list else list[..PAGE] }

  /** What one reconciliation finds: the provider's list, the latest invoice of the subscription, and the
      newest settled invoice of the preceding period as saved after the newest page was observed. */
  datatype Pass = Pass(list: seq<nat>, latest: Option<nat>, prior: Option<nat>)

  function SetOf(o: Option<nat>): set<nat> { if o.Some? then {o.value} else {} }

  /** What is looked at again whatever the history: the latest invoice, the newest page, the preceding period. */
  function Reverified(w: Pass): set<nat> { SetOf(w.latest) + ToSet(FirstPage(w.list)) + SetOf(w.prior) }

  /** One reconciliation: those always, and one page further back until the history is complete. */
  ghost function Reconciled(p: Progress, w: Pass): Progress
    requires p.cursor.Some? ==> p.cursor.value in w.list
  {
    var seen := p.observed + Reverified(w);
    if p.complete then p.(observed := seen)
    else
      var rest := After(w.list, p.cursor);
      var older := FirstPage(rest);
      if |rest| > PAGE then Progress(Some(older[PAGE - 1]), false, seen + ToSet(older))
      else Progress(None, true, seen + ToSet(older))
  }

  /** The place in the list where reading goes on: its start, or behind the cursor. */
  predicate IsAt(list: seq<nat>, cursor: Option<nat>, at: nat) {
    if cursor.None? then at == 0 else 0 < at <= |list| && list[at - 1] == cursor.value
  }

  /** What is looked at again includes the latest invoice, the preceding period and the newest hundred. */
  lemma ReverifiedIs(w: Pass)
    ensures w.latest.Some? ==> w.latest.value in Reverified(w)
    ensures w.prior.Some? ==> w.prior.value in Reverified(w)
    ensures forall i :: 0 <= i < |w.list| && i < 100 ==> w.list[i] in Reverified(w)
  {
    forall i | 0 <= i < |w.list| && i < 100 ensures w.list[i] in Reverified(w) { assert FirstPage(w.list)[i] == w.list[i]; }
  }

  /** The page read is the hundred from that place on. */
  lemma PageAt(list: seq<nat>, cursor: Option<nat>) returns (at: nat)
    requires Distinct(list) && (cursor.Some? ==> cursor.value in list)
    ensures IsAt(list, cursor, at) && After(list, cursor) == list[at..]
    ensures forall i :: at <= i < |list| && i < at + 100 ==> list[i] in ToSet(FirstPage(list[at..]))
    ensures |list| > at + 100 ==> |FirstPage(list[at..])| == 100 && FirstPage(list[at..])[99] == list[at + 99]
  {
    at := if cursor.None? then 0 else IndexOf(list, cursor.value) + 1;
    forall i | at <= i < |list| && i < at + 100 ensures list[i] in ToSet(FirstPage(list[at..])) {
      assert FirstPage(list[at..])[i - at] == list[i];
    }
  }

  /** One reconciliation reads the hundred from its place on; it is complete exactly if no more are left, and otherwise
      goes on behind the last one read. A complete history stays so. */
  lemma ReconciledIs(p: Progress, w: Pass) returns (at: nat)
    requires Distinct(w.list) && (p.cursor.Some? ==> p.cursor.value in w.list) && (p.complete ==> p.cursor.None?)
    ensures IsAt(w.list, p.cursor, at)
    ensures var q := Reconciled(p, w);
            if p.complete then q.complete && q.cursor.None?
            else
              && (forall i :: at <= i < |w.list| && i < at + 100 ==> w.list[i] in q.observed)
              && if |w.list| <= at + 100 then q.complete && q.cursor.None? else !q.complete && q.cursor == Some(w.list[at + 99])
  {
    at := PageAt(w.list, p.cursor);
    hide IsAt, Reverified, ToSet, Distinct, FirstPage, After;
  }

  /** `looked` is what this very pass retrieved: stale evidence of the preceding period can grant nothing. It makes
      at most four requests, however long the history is. */
  method Reconcile(p: Progress, w: Pass) returns (q: Progress, looked: set<nat>, requests: nat)
    requires p.cursor.Some? ==> p.cursor.value in w.list
    requires Distinct(w.list) && (p.complete ==> p.cursor.None?)
    ensures q == Reconciled(p, w)
    ensures q.cursor.Some? ==> q.cursor.value in w.list && q.cursor != p.cursor
    ensures Reverified(w) <= looked && q.observed == p.observed + looked && requests <= 4
  {
    looked, requests := ReadRecent(w);
    hide Reverified, ToSet, Distinct, FirstPage;
    q := p.(observed := p.observed + looked);
    if q.complete { return; }
    var older, rest := ReadOlder(w.list, p.cursor);
    if p.cursor.Some? { requests := requests + 1; }
    looked := looked + ToSet(older);
    q := q.(observed := p.observed + looked);
    if |rest| > PAGE {
      PageIsFull(rest);
      CursorMovesOn(w.list, p.cursor);
      q := q.(cursor := Some(older[|older| - 1]));
    } else {
      q := q.(complete := true, cursor := None);
    }
  }

  lemma PageIsFull(rest: seq<nat>)
    requires |rest| > PAGE
    ensures |FirstPage(rest)| == PAGE && FirstPage(rest)[PAGE - 1] in rest
  {
  }

  /** The latest invoice, the newest page, and the preceding period unless one of these covers it. */
  method ReadRecent(w: Pass) returns (looked: set<nat>, requests: nat)
    ensures looked == Reverified(w) && requests <= 3
  {
    looked, requests := SetOf(w.latest), if w.latest.Some? then 1 else 0;
    var recent := FirstPage(w.list);
    hide FirstPage;
    looked, requests := looked + ToSet(recent), requests + 1;
    if w.prior.Some? && w.prior.value !in recent && w.prior != w.latest {
      looked, requests := looked + {w.prior.value}, requests + 1;
    }
  }

  /** The page that follows the cursor, and everything that follows it. */
  method ReadOlder(list: seq<nat>, cursor: Option<nat>) returns (older: seq<nat>, rest: seq<nat>)
    requires Distinct(list) && (cursor.Some? ==> cursor.value in list)
    ensures rest == After(list, cursor) && older == FirstPage(rest)
  {
    var from := 0;
    if cursor.Some? {
      while list[from] != cursor.value
        invariant 0 <= from < |list| && cursor.value !in list[..from]
        decreases |list| - from
      {
        StillAhead(list, from, cursor.value);
        from := from + 1;
      }
      from := from + 1;
    }
    rest := list[from..];
    assert rest == After(list, cursor);
    older := FirstPage(rest);
  }

  lemma StillAhead(list: seq<nat>, from: nat, id: nat)
    requires id in list && from < |list| && list[from] != id && id !in list[..from]
    ensures from + 1 < |list| && id !in list[..from + 1]
  {
    var i :| 0 <= i < |list| && list[i] == id;
    assert list[..from + 1] == list[..from] + [list[from]];
  }

  /** The page after a cursor never ends with the cursor itself, so pagination always advances. */
  lemma CursorMovesOn(list: seq<nat>, cursor: Option<nat>)
    requires Distinct(list) && (cursor.Some? ==> cursor.value in list)
    ensures forall x <- After(list, cursor) :: x in list && cursor != Some(x)
  {
  }

  /** The provider's lists at successive reconciliations: each puts new invoices in front of the last. */
  ghost predicate Growing(passes: seq<Pass>) {
    && (forall k :: 0 <= k < |passes| ==> Distinct(passes[k].list))
    && (forall k :: 0 < k < |passes| ==> IsSuffix(passes[k - 1].list, passes[k].list))
  }

  predicate IsSuffix(a: seq<nat>, b: seq<nat>) { |a| <= |b| && b[|b| - |a|..] == a }

  /** Of the list as it was at the first reconciliation, everything down to the cursor has been observed. */
  ghost predicate ReadDown(first: seq<nat>, p: Progress) {
    if p.complete then p.cursor.None? && ToSet(first) <= p.observed
    else p.cursor.Some? && p.cursor.value in first && ToSet(first[..IndexOf(first, p.cursor.value) + 1]) <= p.observed
  }

  lemma IndexIs(list: seq<nat>, i: nat)
    requires Distinct(list) && i < |list|
    ensures IndexOf(list, list[i]) == i
  {
    assert list[i] in list;
  }

  /** Growth in front does not change what follows an older invoice. */
  lemma SameAfter(a: seq<nat>, b: seq<nat>, id: nat)
    requires Distinct(b) && IsSuffix(a, b) && id in a
    ensures id in b && After(b, Some(id)) == After(a, Some(id))
  {
    var i := IndexOf(a, id);
    assert b[|b| - |a| + i] == id;
    IndexIs(b, |b| - |a| + i);
  }

  lemma {:induction false} OldestIsASuffix(passes: seq<Pass>)
    requires Growing(passes) && passes != []
    ensures IsSuffix(passes[0].list, passes[|passes| - 1].list)
    decreases |passes|
  {
    if |passes| > 1 {
      var n := |passes| - 1;
      OldestIsASuffix(passes[..n]);
      assert IsSuffix(passes[n - 1].list, passes[n].list);
      SuffixOfSuffix(passes[0].list, passes[n - 1].list, passes[n].list);
    }
  }

  lemma SuffixOfSuffix(a: seq<nat>, b: seq<nat>, c: seq<nat>)
    requires IsSuffix(a, b) && IsSuffix(b, c)
    ensures IsSuffix(a, c)
  {
    assert c[|c| - |b|..][|b| - |a|..] == c[|c| - |a|..];
  }

  lemma FirstReading(w: Pass)
    requires Distinct(w.list)
    ensures ReadDown(w.list, Reconciled(UNREAD, w))
  {
    if |w.list| > PAGE { IndexIs(w.list, PAGE - 1); }
  }

  lemma ToSetSplit(list: seq<nat>, a: nat, b: nat)
    requires a <= b <= |list|
    ensures ToSet(list[..b]) == ToSet(list[..a]) + ToSet(list[a..b])
  {
    assert list[..b] == list[..a] + list[a..b];
  }

  /** The page after position `at`. */
  lemma PageAfter(list: seq<nat>, at: nat)
    requires Distinct(list) && at < |list|
    ensures var end := if |list| - at - 1 > PAGE then at + 1 + PAGE else |list|;
            FirstPage(list[at + 1..]) == list[at + 1..end]
    ensures |list| - at - 1 > PAGE ==> list[at + 1..][PAGE - 1] == list[at + PAGE] && IndexOf(list, list[at + PAGE]) == at + PAGE
  {
    if |list| - at - 1 > PAGE { IndexIs(list, at + PAGE); }
  }

  /** Reading one page further back. */
  lemma ReadingOn(first: seq<nat>, p: Progress, w: Pass)
    requires Distinct(first) && Distinct(w.list) && IsSuffix(first, w.list) && ReadDown(first, p)
    ensures p.cursor.Some? ==> p.cursor.value in w.list
    ensures ReadDown(first, Reconciled(p, w))
    ensures !p.complete && !Reconciled(p, w).complete ==>
              IndexOf(first, Reconciled(p, w).cursor.value) == IndexOf(first, p.cursor.value) + PAGE
  {
    if !p.complete {
      var at := IndexOf(first, p.cursor.value);
      SameAfter(first, w.list, p.cursor.value);
      var end := if |first| - at - 1 > PAGE then at + 1 + PAGE else |first|;
      PageAfter(first, at);
      ToSetSplit(first, at + 1, end);
      assert first[..|first|] == first;
      hide ToSet, IndexOf, Distinct;
    }
  }

  ghost function Read(p: Progress, passes: seq<Pass>): Progress
    requires Growing(passes) && (passes != [] ==> p.cursor.Some? ==> p.cursor.value in passes[0].list)
    decreases |passes|
  {
    if passes == [] then p
    else
      var n := |passes| - 1;
      var q := Read(p, passes[..n]);
      if q.cursor.Some? && q.cursor.value !in passes[n].list then q else Reconciled(q, passes[n])
  }

  /** No invoice is missed: once the history is reported complete, every invoice that existed at the first
      reconciliation has been observed, whatever was issued meanwhile; and each reconciliation before that
      reads a full page further, so completion takes at most one reconciliation per page. */
  lemma {:induction false} HistoryIsReadCompletely(passes: seq<Pass>)
    requires Growing(passes) && passes != []
    ensures var p, first := Read(UNREAD, passes), passes[0].list;
            && ReadDown(first, p)
            && (p.complete ==> ToSet(first) <= p.observed)
            && (!p.complete ==> IndexOf(first, p.cursor.value) + 1 == |passes| * PAGE && |passes| * PAGE < |first|)
    decreases |passes|
  {
    var n := |passes| - 1;
    if n == 0 {
      FirstReading(passes[0]);
      if |passes[0].list| > PAGE { IndexIs(passes[0].list, PAGE - 1); }
    } else {
      var before := Read(UNREAD, passes[..n]);
      HistoryIsReadCompletely(passes[..n]);
      OldestIsASuffix(passes);
      ReadingOn(passes[0].list, before, passes[n]);
    }
  }
}
