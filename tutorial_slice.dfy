/** The tutorial slice of the store: one mark per tutorial status, and the
    `markStatus` reducer that marks every status from the first one in the
    tutorial order up to and including the given one. */
module TutorialSlice {

  /** The tutorial steps, in the order of `tutorialStatuses`. */
  datatype TutorialStatus = CONFIG | ROLL | RESET | FINAL

  const tutorialStatuses: seq<TutorialStatus> := [CONFIG, ROLL, RESET, FINAL]

  /** `state.statuses`: one mark per status. */
  type Statuses = map<TutorialStatus, bool>

  /** The position of a status in the tutorial order. */
  function Rank(s: TutorialStatus): (r: nat)
    ensures r < |tutorialStatuses| && tutorialStatuses[r] == s
  {
    match s
    case CONFIG => 0
    case ROLL => 1
    case RESET => 2
    case FINAL => 3
  }

  /** Every status appears once in the order: the rank of the status at
      position `i` is `i`. */
  lemma RankOfOrder(i: nat)
    requires i < |tutorialStatuses|
    ensures Rank(tutorialStatuses[i]) == i
  {
  }

  /** Every status has a mark. */
  predicate Total(m: Statuses)
  {
    forall s: TutorialStatus :: s in m
  }

  /** `initialState.statuses`: nothing is marked. */
  const initialStatuses: Statuses := map[CONFIG := false, ROLL := false, RESET := false, FINAL := false]

  lemma InitialIsTotal()
    ensures Total(initialStatuses) && forall s :: !initialStatuses[s]
  {
    forall s: TutorialStatus
      ensures s in initialStatuses && !initialStatuses[s]
    {
      match s
      case CONFIG =>
      case ROLL =>
      case RESET =>
      case FINAL =>
    }
  }

  /** The marked statuses are a prefix of the tutorial order. */
  ghost predicate IsPrefix(m: Statuses)
    requires Total(m)
  {
    forall t, u :: Rank(t) <= Rank(u) && m[u] ==> m[t]
  }

  /** What `markStatus(s)` leaves: nothing changes when `s` is already
      marked; otherwise every status up to and including `s` is marked. */
  function Marked(m: Statuses, s: TutorialStatus): (r: Statuses)
    requires Total(m)
    ensures Total(r)
  {
    if m[s] then m else map t | t in m :: m[t] || Rank(t) <= Rank(s)
  }

  /** On an unmarked status, `markStatus` marks the statuses up to and
      including it and touches no later one. */
  lemma MarkSetsThrough(m: Statuses, s: TutorialStatus)
    requires Total(m) && !m[s]
    ensures forall t :: Rank(t) <= Rank(s) ==> Marked(m, s)[t]
    ensures forall t :: Rank(s) < Rank(t) ==> Marked(m, s)[t] == m[t]
  {
  }

  /** On an already marked status, `markStatus` changes nothing; so marking
      twice is marking once. */
  lemma MarkIdempotent(m: Statuses, s: TutorialStatus)
    requires Total(m)
    ensures m[s] ==> Marked(m, s) == m
    ensures Marked(Marked(m, s), s) == Marked(m, s)
  {
    assert Marked(m, s)[s];
  }

  /** Marks are never cleared. */
  lemma MarksNeverCleared(m: Statuses, s: TutorialStatus, t: TutorialStatus)
    requires Total(m) && m[t]
    ensures Marked(m, s)[t]
  {
  }

  /** Marking keeps the marks a prefix of the order. */
  lemma MarkKeepsPrefix(m: Statuses, s: TutorialStatus)
    requires Total(m) && IsPrefix(m)
    ensures IsPrefix(Marked(m, s))
  {
  }

  /** The marks after dispatching `markStatus` with each of `payloads`, in
      turn, from the initial state. */
  function History(payloads: seq<TutorialStatus>): (r: Statuses)
    ensures Total(r)
  {
    if payloads == [] then InitialIsTotal(); initialStatuses
    else Marked(History(payloads[..|payloads| - 1]), payloads[|payloads| - 1])
  }

  /** Whatever was dispatched, the marks form a prefix of the order. */
  lemma {:induction false} HistoryIsPrefix(payloads: seq<TutorialStatus>)
    ensures IsPrefix(History(payloads))
  {
    if payloads != [] {
      HistoryIsPrefix(payloads[..|payloads| - 1]);
      MarkKeepsPrefix(History(payloads[..|payloads| - 1]), payloads[|payloads| - 1]);
    }
  }

  /** The slice's state, which the reducer updates in place. */
  class TutorialState {
    var statuses: Statuses

    ghost predicate Valid()
      reads this
    {
      Total(statuses)
    }

    constructor ()
      ensures Valid() && statuses == initialStatuses
    {
      InitialIsTotal();
      statuses := initialStatuses;
    }

    /** `markStatus`: unless `payload` is marked already, walk the order,
      marking each status, and stop after marking `payload`. */
    method MarkStatus(payload: TutorialStatus)
      requires Valid()
      modifies this
      ensures Valid() && statuses == Marked(old(statuses), payload)
    {
      if !statuses[payload] {
        for k := 0 to |tutorialStatuses|
          invariant k <= Rank(payload)
          invariant Total(statuses)
          invariant forall t :: statuses[t] == (old(statuses)[t] || Rank(t) < k)
        {
          var status := tutorialStatuses[k];
          RankOfOrder(k);
          statuses := statuses[status := true];
          if payload == status {
            break;
          }
        }
      }
    }
  }
}
