/** The rest detector of `getRestChecker` (src/app/lib/utils.ts): a closure
    over two counters that reports when the dice have settled. A call is
    "calm" when the average speed per die is below 0.01 or when the step cap
    has been reached; `restConfirmations` calm calls in a row settle it. */
module Rest {
  import opened Constants

  /** The sum of the per-die speeds, folded from the left as `reduce` does. */
  function Sum(speeds: seq<real>): real
  {
    if speeds == [] then 0.0 else Sum(speeds[..|speeds| - 1]) + speeds[|speeds| - 1]
  }

  /** `sumVelocity / cubes.length < 0.01`. With no dice the quotient is NaN
      and the comparison is false. */
  predicate Calm(speeds: seq<real>)
  {
    |speeds| > 0 && Sum(speeds) < 0.01 * |speeds| as real
  }

  /** The closure's two counters. */
  datatype Counters = Counters(finalConfirmation: nat, steps: nat)

  const Fresh: Counters := Counters(0, 0)

  /** One call of the checker: the new counters and its answer. */
  function Step(c: Counters, speeds: seq<real>): (r: (Counters, bool))
    ensures r.0.steps == c.steps + 1
    ensures r.1 <==> r.0.finalConfirmation >= restConfirmations
    ensures r.0.steps < stepsConfirmations && !Calm(speeds) ==> r.0.finalConfirmation == 0 && !r.1
    ensures r.0.steps >= stepsConfirmations || Calm(speeds) ==> r.0.finalConfirmation == c.finalConfirmation + 1
  {
    var steps := c.steps + 1;
    if steps >= stepsConfirmations || Calm(speeds) then
      var finalConfirmation := c.finalConfirmation + 1;
      (Counters(finalConfirmation, steps), finalConfirmation >= restConfirmations)
    else
      (Counters(0, steps), false)
  }

  /** What every reachable pair of counters satisfies: the calm run is no
      longer than the number of calls, and from call `stepsConfirmations`
      on every call has been calm. */
  predicate Reachable(c: Counters)
  {
    && c.finalConfirmation <= c.steps
    && (c.steps >= stepsConfirmations ==> c.finalConfirmation >= c.steps - stepsConfirmations + 1)
  }

  lemma StepKeepsReachable(c: Counters, speeds: seq<real>)
    requires Reachable(c)
    ensures Reachable(Step(c, speeds).0)
  {
  }

  /** Once the call count reaches `stepsConfirmations + restConfirmations - 1`
      the checker answers true, whatever the speeds. */
  lemma CapForcesRest(c: Counters, speeds: seq<real>)
    requires Reachable(c)
    requires c.steps + 1 >= stepsConfirmations + restConfirmations - 1
    ensures Step(c, speeds).1
  {
  }

  /** The counters after a sequence of calls on a fresh checker. */
  function Run(calls: seq<seq<real>>): Counters
  {
    if calls == [] then Fresh else Step(Run(calls[..|calls| - 1]), calls[|calls| - 1]).0
  }

  /** The answer of the last of a non-empty sequence of calls. */
  predicate AnswersTrue(calls: seq<seq<real>>)
    requires calls != []
  {
    Step(Run(calls[..|calls| - 1]), calls[|calls| - 1]).1
  }

  lemma {:induction false} RunIsReachable(calls: seq<seq<real>>)
    ensures Run(calls).steps == |calls|
    ensures Reachable(Run(calls))
  {
    if calls != [] {
      RunIsReachable(calls[..|calls| - 1]);
      StepKeepsReachable(Run(calls[..|calls| - 1]), calls[|calls| - 1]);
    }
  }

  /** When every call is calm the calm run counts every call. */
  lemma {:induction false} CalmRunCountsEveryCall(calls: seq<seq<real>>)
    requires forall i :: 0 <= i < |calls| ==> Calm(calls[i])
    ensures Run(calls).finalConfirmation == |calls|
  {
    if calls != [] {
      var prefix := calls[..|calls| - 1];
      assert forall i :: 0 <= i < |prefix| ==> prefix[i] == calls[i];
      CalmRunCountsEveryCall(prefix);
    }
  }

  /** When every call is calm the checker answers true exactly from call
      `restConfirmations` on: the first true is on call 50. */
  lemma CalmRestsAtConfirmations(calls: seq<seq<real>>)
    requires calls != []
    requires forall i :: 0 <= i < |calls| ==> Calm(calls[i])
    ensures AnswersTrue(calls) <==> |calls| >= restConfirmations
  {
    CalmRunCountsEveryCall(calls);
  }

  /** The checker never answers true before call `restConfirmations`. */
  lemma NeverRestsEarly(calls: seq<seq<real>>)
    requires calls != [] && AnswersTrue(calls)
    ensures |calls| >= restConfirmations
  {
    RunIsReachable(calls);
  }

  /** Whatever the speeds, call `stepsConfirmations + restConfirmations - 1`
      (the 549th) and every later call answers true. */
  lemma RestsByCap(calls: seq<seq<real>>)
    requires |calls| >= stepsConfirmations + restConfirmations - 1
    ensures AnswersTrue(calls)
  {
    RunIsReachable(calls[..|calls| - 1]);
    CapForcesRest(Run(calls[..|calls| - 1]), calls[|calls| - 1]);
  }

  /** The closure returned by `getRestChecker`, as an object with the two
      captured counters as fields. */
  class RestChecker {
    var finalConfirmation: nat
    var steps: nat

    function State(): Counters
      reads this
    {
      Counters(finalConfirmation, steps)
    }

    ghost predicate Valid()
      reads this
    {
      Reachable(State())
    }

    constructor ()
      ensures State() == Fresh && Valid()
    {
      finalConfirmation := 0;
      steps := 0;
    }

    /** One call of the closure, given each die's speed (the length of its
        linear plus the length of its angular velocity). */
    method Check(speeds: seq<real>) returns (rested: bool)
      requires Valid()
      modifies this
      ensures Valid()
      ensures (State(), rested) == Step(old(State()), speeds)
    {
      StepKeepsReachable(State(), speeds);
      var sumVelocity := Sum(speeds);
      steps := steps + 1;
      if steps >= stepsConfirmations || (|speeds| > 0 && sumVelocity < 0.01 * |speeds| as real) {
        finalConfirmation := finalConfirmation + 1;
        if finalConfirmation >= restConfirmations {
          return true;
        }
      } else {
        finalConfirmation := 0;
      }
      return false;
    }
  }
}
