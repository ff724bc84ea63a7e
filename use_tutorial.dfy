/** The tutorial hook: the last status marked in tutorial order, and the
    guarded dispatch of `markStatus`. The hook's one effect, the dispatch,
    is modelled as the marks it leaves in the store. */
module UseTutorial {
  import opened Types
  import opened TutorialSlice

  /** `findLast` over the first `n` statuses of the order: the last of them
      that is marked, if any. */
  function FindLastMarked(m: Statuses, n: nat): (r: Option<TutorialStatus>)
    requires Total(m) && n <= |tutorialStatuses|
    ensures r.None? <==> forall j :: 0 <= j < n ==> !m[tutorialStatuses[j]]
    ensures r.Some? ==> Rank(r.value) < n && m[r.value]
    ensures r.Some? ==> forall j :: Rank(r.value) < j < n ==> !m[tutorialStatuses[j]]
  {
    if n == 0 then None
    else if m[tutorialStatuses[n - 1]] then
      RankOfOrder(n - 1);
      Some(tutorialStatuses[n - 1])
    else FindLastMarked(m, n - 1)
  }

  /** `lastActiveStatus`: the last status in tutorial order whose mark is
      set, or none when nothing is marked. */
  function LastActiveStatus(m: Statuses): (r: Option<TutorialStatus>)
    requires Total(m)
    ensures r.None? <==> forall t :: !m[t]
    ensures r.Some? ==> m[r.value] && forall t :: Rank(r.value) < Rank(t) ==> !m[t]
  {
    LastOverWholeOrder(m);
    FindLastMarked(m, |tutorialStatuses|)
  }

  /** Over the whole order, positions and statuses are interchangeable. */
  lemma LastOverWholeOrder(m: Statuses)
    requires Total(m)
    ensures var r := FindLastMarked(m, |tutorialStatuses|);
      && (r.None? <==> forall t :: !m[t])
      && (r.Some? ==> forall t :: Rank(r.value) < Rank(t) ==> !m[t])
  {
    var r := FindLastMarked(m, |tutorialStatuses|);
    forall t
      ensures r.None? ==> !m[t]
      ensures r.Some? && Rank(r.value) < Rank(t) ==> !m[t]
    {
      assert tutorialStatuses[Rank(t)] == t;
    }
  }

  /** `checkStatus(status, checkFn)`: dispatch `markStatus(status)` when the
      status is not marked yet and either no check is given or the check
      passes. `check` is the check's answer, or `None` when no check is
      given; the check is not consulted for a marked status. */
  function CheckStatus(m: Statuses, status: TutorialStatus, check: Option<bool>): (r: Statuses)
    requires Total(m)
    ensures Total(r)
  {
    if !m[status] && (check.None? || check.value) then Marked(m, status) else m
  }

  /** `checkStatus` changes the marks exactly when the status is unmarked and
      the check, if any, passes. */
  lemma CheckStatusChangesIff(m: Statuses, status: TutorialStatus, check: Option<bool>)
    requires Total(m)
    ensures CheckStatus(m, status, check) != m <==> !m[status] && (check.None? || check.value)
  {
    if !m[status] {
      assert Marked(m, status)[status];
    }
  }

  /** Because the marks form a prefix, a status that `checkStatus` marks
      becomes the last active one. */
  lemma CheckStatusBecomesLast(m: Statuses, status: TutorialStatus, check: Option<bool>)
    requires Total(m) && IsPrefix(m)
    requires !m[status] && (check.None? || check.value)
    ensures LastActiveStatus(CheckStatus(m, status, check)) == Some(status)
  {
    var r := CheckStatus(m, status, check);
    MarkSetsThrough(m, status);
    var last := LastActiveStatus(r);
    assert r[status];
    assert last.Some?;
  }

  /** A `checkStatus` on a marked status leaves the last active status as it
      was. */
  lemma CheckMarkedKeepsLast(m: Statuses, status: TutorialStatus, check: Option<bool>)
    requires Total(m) && m[status]
    ensures CheckStatus(m, status, check) == m
    ensures LastActiveStatus(CheckStatus(m, status, check)) == LastActiveStatus(m)
  {
  }

  /** From the initial state, after any history of dispatches, a successful
      `checkStatus` makes its status the last active one. */
  lemma CheckAfterHistory(payloads: seq<TutorialStatus>, status: TutorialStatus, check: Option<bool>)
    requires !History(payloads)[status] && (check.None? || check.value)
    ensures LastActiveStatus(CheckStatus(History(payloads), status, check)) == Some(status)
  {
    HistoryIsPrefix(payloads);
    CheckStatusBecomesLast(History(payloads), status, check);
  }
}
