/**
What holds of every dispatch, whatever the plugins answer and in whatever order the map is visited.
*/
module DispatchTheorems {
  import opened Wrappers
  import opened Events
  import opened PluginDispatch
  import opened Sequences

  // ---------------------------------------------------------------- no plugin is called for its own consequences

  // A chain of calls, each made for the answer of the one before it.
  ghost predicate IsChain(calls: seq<Call>, chain: seq<Name>)
    decreases chain
  {
    chain == [] ||
    exists i :: 0 <= i < |calls| && calls[i].plugin == chain[0] && IsChain(calls[i].sub, chain[1..])
  }

  // The plugins on a chain are pairwise distinct, configured, and none of them was to be skipped.
  lemma {:induction false} ChainsAreDistinct(
      ps: Plugins, events: seq<Event>, skip: set<Name>, calls: seq<Call>, chain: seq<Name>)
    requires IsDispatch(ps, events, skip, calls) && IsChain(calls, chain)
    ensures Distinct(chain)
    ensures forall i :: 0 <= i < |chain| ==> chain[i] in ps.filters && chain[i] !in skip
    decreases chain
  {
    if chain != [] {
      var i :| 0 <= i < |calls| && calls[i].plugin == chain[0] && IsChain(calls[i].sub, chain[1..]);
      assert IsFollowUp(ps, skip, calls[i]);
      if calls[i].result.Some? {
        ChainsAreDistinct(ps, calls[i].result.value, skip + {chain[0]}, calls[i].sub, chain[1..]);
      }
      assert forall j :: 0 < j < |chain| ==> chain[j] == chain[1..][j - 1];
    }
  }

  // What a plugin emits is never handed back to it, however long the chain.
  lemma EmitterIsNeverCalled(ps: Plugins, keep: seq<Event>, emitter: Name, calls: seq<Call>, chain: seq<Name>)
    requires IsDispatch(ps, keep, {emitter}, calls) && IsChain(calls, chain)
    ensures emitter !in chain
  {
    ChainsAreDistinct(ps, keep, {emitter}, calls, chain);
  }

  // ---------------------------------------------------------------- how many calls there can be

  // n!/(n-k)!, the number of ways to line up k of n plugins.
  function Arrangements(n: nat, k: nat): nat
    decreases k
  {
    if k == 0 then 1 else if n == 0 then 0 else n * Arrangements(n - 1, k - 1)
  }

  // The sum of Arrangements(n, j) for j from 1 to k.
  function SumArrangements(n: nat, k: nat): nat {
    if k == 0 then 0 else SumArrangements(n, k - 1) + Arrangements(n, k)
  }

  function MaxCalls(n: nat): nat { SumArrangements(n, n) }

  function Factorial(n: nat): nat { if n == 0 then 1 else n * Factorial(n - 1) }

  lemma {:induction false} ArrangementsAreQuotients(n: nat, k: nat)
    requires k <= n
    ensures Arrangements(n, k) * Factorial(n - k) == Factorial(n)
  {
    if k > 0 {
      ArrangementsAreQuotients(n - 1, k - 1);
      calc {
        Arrangements(n, k) * Factorial(n - k);
        n * Arrangements(n - 1, k - 1) * Factorial(n - k);
        { MulAssociates(n, Arrangements(n - 1, k - 1), Factorial(n - k)); }
        n * Factorial(n - 1);
      }
    }
  }

  lemma MulAssociates(a: nat, b: nat, c: nat)
    ensures a * b * c == a * (b * c)
  {
  }

  lemma {:induction false} SumUnfolds(n: nat, k: nat)
    requires n > 0
    ensures SumArrangements(n, k + 1) == n * (1 + SumArrangements(n - 1, k))
  {
    if k == 0 {
      assert Arrangements(n, 1) == n * Arrangements(n - 1, 0);
      assert SumArrangements(n, 1) == SumArrangements(n, 0) + Arrangements(n, 1);
    } else {
      SumUnfolds(n, k - 1);
      assert Arrangements(n, k + 1) == n * Arrangements(n - 1, k);
      MulDistributes(n, 1 + SumArrangements(n - 1, k - 1), Arrangements(n - 1, k));
    }
  }

  lemma MulDistributes(a: nat, b: nat, c: nat)
    ensures a * (b + c) == a * b + a * c
  {
  }

  lemma MaxCallsUnfolds(n: nat)
    ensures MaxCalls(n) == if n == 0 then 0 else n * (1 + MaxCalls(n - 1))
  {
    if n > 0 { SumUnfolds(n, n - 1); }
  }

  function Unskipped(ps: Plugins, skip: set<Name>): set<Name> { ps.filters.Keys - skip }

  // Pairwise distinct plugins out of a set are no more than its elements.
  lemma {:induction false} DistinctCallsFit(calls: seq<Call>, names: set<Name>)
    requires forall i :: 0 <= i < |calls| ==> calls[i].plugin in names
    requires forall i, j :: 0 <= i < j < |calls| ==> calls[i].plugin != calls[j].plugin
    ensures |calls| <= |names|
  {
    if calls != [] {
      DistinctCallsFit(calls[..|calls| - 1], names - {calls[|calls| - 1].plugin});
    }
  }

  lemma {:induction false} CountOfBounded(calls: seq<Call>, bound: nat)
    requires forall i :: 0 <= i < |calls| ==> CallCount(calls[i]) <= bound
    ensures Count(calls) <= |calls| * bound
  {
    if calls != [] {
      CountOfBounded(calls[..|calls| - 1], bound);
      MulDistributes(bound, |calls| - 1, 1);
    }
  }

  lemma MulMonotone(a: nat, b: nat, c: nat)
    requires a <= b
    ensures a * c <= b * c
  {
  }

  // With n unskipped plugins, HandleEvents is called at most n!/(n-1)! + ... + n!/0! times.
  lemma {:induction false} CallsAreBounded(ps: Plugins, events: seq<Event>, skip: set<Name>, calls: seq<Call>)
    requires IsDispatch(ps, events, skip, calls)
    ensures Count(calls) <= MaxCalls(|Unskipped(ps, skip)|)
    decreases calls
  {
    var n := |Unskipped(ps, skip)|;
    if calls != [] {
      DistinctCallsFit(calls, Unskipped(ps, skip));
      forall i | 0 <= i < |calls| ensures CallCount(calls[i]) <= 1 + MaxCalls(n - 1) {
        FollowUpIsBounded(ps, skip, calls[i]);
      }
      CountOfBounded(calls, 1 + MaxCalls(n - 1));
      MulMonotone(|calls|, n, 1 + MaxCalls(n - 1));
      MaxCallsUnfolds(n);
    }
  }

  lemma {:induction false} FollowUpIsBounded(ps: Plugins, skip: set<Name>, call: Call)
    requires IsFollowUp(ps, skip, call) && call.plugin in Unskipped(ps, skip)
    ensures CallCount(call) <= 1 + MaxCalls(|Unskipped(ps, skip)| - 1)
    decreases call
  {
    if call.result.Some? {
      CallsAreBounded(ps, call.result.value, skip + {call.plugin}, call.sub);
      assert Unskipped(ps, skip + {call.plugin}) == Unskipped(ps, skip) - {call.plugin};
    }
  }

  // ---------------------------------------------------------------- the bound is reached

  ghost predicate NoFilters(ps: Plugins) { forall p :: p in ps.filters ==> ps.filters[p] == "" }

  // Every call of a forest was answered with events.
  ghost predicate AllAnswered(calls: seq<Call>)
    decreases calls
  {
    forall i :: 0 <= i < |calls| ==> IsAnswered(calls[i])
  }

  ghost predicate IsAnswered(call: Call)
    decreases call
  {
    call.result.Some? && call.result.value != [] && AllAnswered(call.sub)
  }

  // If no plugin has a filter and every call is answered with events, every run makes as many calls as the bound
  // allows.
  lemma {:induction false} BoundIsReached(ps: Plugins, events: seq<Event>, skip: set<Name>, calls: seq<Call>)
    requires events != [] && NoFilters(ps) && IsDispatch(ps, events, skip, calls) && AllAnswered(calls)
    ensures Count(calls) == MaxCalls(|Unskipped(ps, skip)|)
    decreases calls
  {
    var n := |Unskipped(ps, skip)|;
    PassesAll(ps, events);
    EveryoneIsCalled(calls, Unskipped(ps, skip));
    if calls != [] {
      forall i | 0 <= i < |calls| ensures CallCount(calls[i]) == 1 + MaxCalls(n - 1) {
        FollowUpReachesBound(ps, skip, calls[i]);
      }
      CountOfEqual(calls, 1 + MaxCalls(n - 1));
    }
    MaxCallsUnfolds(n);
  }

  lemma {:induction false} FollowUpReachesBound(ps: Plugins, skip: set<Name>, call: Call)
    requires NoFilters(ps) && IsFollowUp(ps, skip, call) && IsAnswered(call) && call.plugin in Unskipped(ps, skip)
    ensures CallCount(call) == 1 + MaxCalls(|Unskipped(ps, skip)| - 1)
    decreases call
  {
    var more := skip + {call.plugin};
    assert Unskipped(ps, more) == Unskipped(ps, skip) - {call.plugin};
    assert |Unskipped(ps, more)| == |Unskipped(ps, skip)| - 1;
    BoundIsReached(ps, call.result.value, more, call.sub);
  }

  lemma {:induction false} EveryoneIsCalled(calls: seq<Call>, names: set<Name>)
    requires forall i, j :: 0 <= i < j < |calls| ==> calls[i].plugin != calls[j].plugin
    requires forall i :: 0 <= i < |calls| ==> calls[i].plugin in names
    requires forall p :: p in names ==> exists i :: 0 <= i < |calls| && calls[i].plugin == p
    ensures |calls| == |names|
  {
    if calls == [] {
      assert names == {};
    } else {
      var front, p := calls[..|calls| - 1], calls[|calls| - 1].plugin;
      forall q | q in names - {p} ensures exists i :: 0 <= i < |front| && front[i].plugin == q {
        var i :| 0 <= i < |calls| && calls[i].plugin == q;
        assert front[i].plugin == q;
      }
      EveryoneIsCalled(front, names - {p});
    }
  }

  lemma {:induction false} CountOfEqual(calls: seq<Call>, bound: nat)
    requires forall i :: 0 <= i < |calls| ==> CallCount(calls[i]) == bound
    ensures Count(calls) == |calls| * bound
  {
    if calls != [] {
      CountOfEqual(calls[..|calls| - 1], bound);
      MulDistributes(bound, |calls| - 1, 1);
    }
  }

  lemma {:induction false} PassesAll(ps: Plugins, events: seq<Event>)
    ensures Passing(ps, "", events) == events
  {
    if events != [] { PassesAll(ps, events[..|events| - 1]); }
  }

  // ---------------------------------------------------------------- nothing is lost, doubled or invented

  // Everything that the answer to a call leads to is published before that answer, in one piece with it.
  lemma ConsequencesComeFirst(calls: seq<Call>, i: nat) returns (before: seq<seq<Event>>, after: seq<seq<Event>>)
    requires i < |calls|
    ensures
      var answer := if calls[i].result.Some? && calls[i].result.value != [] then [calls[i].result.value] else [];
      Outputs(calls) == before + Outputs(calls[i].sub) + answer + after
    decreases |calls|
  {
    var front := calls[..|calls| - 1];
    if i == |front| {
      before, after := Outputs(front), [];
    } else {
      before, after := ConsequencesComeFirst(front, i);
      after := after + CallOutputs(calls[|front|]);
    }
  }

  // The non-empty answers in the order in which the plugins gave them.
  ghost function Answers(calls: seq<Call>): seq<seq<Event>>
    decreases calls
  {
    if calls == [] then [] else Answers(calls[..|calls| - 1]) + CallAnswers(calls[|calls| - 1])
  }

  ghost function CallAnswers(call: Call): seq<seq<Event>>
    decreases call
  {
    Batch(call.result) + Answers(call.sub)
  }

  // The non-empty answers among the n answers from number from on.
  function Given(answers: Behaviour, from: nat, n: nat): seq<seq<Event>> {
    if n == 0 then [] else Given(answers, from, n - 1) + Batch(answers(from + n - 1))
  }

  lemma {:induction false} GivenJoins(answers: Behaviour, from: nat, m: nat, n: nat, total: nat)
    requires total == m + n
    ensures Given(answers, from, total) == Given(answers, from, m) + Given(answers, from + m, n)
  {
    if n > 0 { GivenJoins(answers, from, m, n - 1, total - 1); }
  }

  lemma FirstGiven(answers: Behaviour, from: nat)
    ensures Given(answers, from, 1) == Batch(answers(from))
  {
    assert Given(answers, from, 0) == [];
  }

  // Read in the order of the calls, a forest holds what the plugins gave.
  lemma {:induction false} AnswersAreGiven(answers: Behaviour, calls: seq<Call>, from: nat)
    requires Records(answers, calls, from)
    ensures Answers(calls) == Given(answers, from, Count(calls))
    decreases calls
  {
    if calls != [] {
      var front, last := calls[..|calls| - 1], calls[|calls| - 1];
      AnswersAreGiven(answers, front, from);
      CallAnswersAreGiven(answers, last, from + Count(front));
      GivenJoins(answers, from, Count(front), CallCount(last), Count(calls));
    }
  }

  lemma {:induction false} CallAnswersAreGiven(answers: Behaviour, call: Call, from: nat)
    requires RecordsCall(answers, call, from)
    ensures CallAnswers(call) == Given(answers, from, CallCount(call))
    decreases call
  {
    AnswersAreGiven(answers, call.sub, from + 1);
    GivenJoins(answers, from, 1, Count(call.sub), CallCount(call));
    FirstGiven(answers, from);
  }

  // Each non-empty answer that a plugin gives to one of the calls is published once, and nothing else is; only the
  // order differs.
  lemma EveryAnswerIsPublishedOnce(answers: Behaviour, calls: seq<Call>, from: nat)
    requires Records(answers, calls, from)
    ensures multiset(Outputs(calls)) == multiset(Given(answers, from, Count(calls)))
  {
    OutputsAreAnswers(calls);
    AnswersAreGiven(answers, calls, from);
  }

  lemma {:induction false} OutputsAreAnswers(calls: seq<Call>)
    ensures multiset(Outputs(calls)) == multiset(Answers(calls))
    decreases calls
  {
    if calls != [] {
      OutputsAreAnswers(calls[..|calls| - 1]);
      CallOutputsAreAnswers(calls[|calls| - 1]);
    }
  }

  lemma {:induction false} CallOutputsAreAnswers(call: Call)
    ensures multiset(CallOutputs(call)) == multiset(CallAnswers(call))
    decreases call
  {
    OutputsAreAnswers(call.sub);
  }

}
