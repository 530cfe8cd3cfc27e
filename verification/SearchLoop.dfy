/**
  The search retry loops of the agent, in SEARCH and in HYBRID mode. The nodes they call return
  updates of the shared state and may write any of it, the loop's own counter included; an endless
  supply of what each pass meets stands for them.
*/
module SearchLoop {
  import opened Wrappers

  const RESERVE: real := 30.0

  // The entries of the shared state that the loops read.
  datatype Shared = Shared(retryCount: int, needsRetry: bool, deadline: real)

  // What one node returns: the entries it overwrites.
  datatype Update = Update(retryCount: Option<int>, needsRetry: Option<bool>, deadline: Option<real>)

  function Apply(s: Shared, u: Update): Shared {
    Shared(Or(u.retryCount, s.retryCount), Or(u.needsRetry, s.needsRetry), Or(u.deadline, s.deadline))
  }

  // One pass: the clock at its check and the nodes' answers, None for one that raises.
  datatype Meets = Meets(clock: real, search: Option<Update>, evaluate: Option<Update>, fallback: Option<Update>,
                         rewrite: Option<Update>)

  // How a pass ended after its search.
  datatype Verdict = SearchRaised | EvaluatorRaised | Good | FellBack | FallbackRaised | Degraded | RewriterRaised
      | Rewrote

  // A pass that called the searcher, with the count and deadline it read before.
  datatype Pass = Pass(count: int, clock: real, deadline: real, verdict: Verdict)

  datatype Ending = Exhausted | OutOfTime | Stopped

  datatype Report = Report(state: Shared, passes: seq<Pass>, ending: Ending)

  predicate TooLate(s: Shared, clock: real) {
    s.deadline > 0.0 && clock > s.deadline - RESERVE
  }

  // The nodes of one pass, from a state that may search.
  function OnePass(hybrid: bool, maxRetries: int, s: Shared, e: Meets): (Shared, Verdict) {
    if e.search.None? then (s, SearchRaised)
    else
      var found := Apply(s, e.search.value);
      if e.evaluate.None? then (found, EvaluatorRaised)
      else
        var judged := Apply(found, e.evaluate.value);
        if !judged.needsRetry then (judged, Good)
        else if s.retryCount >= maxRetries - 1 then
          if hybrid then (judged, Degraded)
          else if e.fallback.None? then (judged, FallbackRaised)
          else (Apply(judged, e.fallback.value), FellBack)
        else if e.rewrite.None? then (judged, RewriterRaised)
        else (Apply(judged, e.rewrite.value).(retryCount := s.retryCount + 1), Rewrote)
  }

  // The loop from pass i on; it ends because the captured count grows, whatever the nodes write.
  function Passes(hybrid: bool, maxRetries: int, s: Shared, env: nat -> Meets, i: nat): Report
    decreases maxRetries - s.retryCount
  {
    if s.retryCount >= maxRetries then Report(s, [], Exhausted)
    else if TooLate(s, env(i).clock) then Report(s, [], OutOfTime)
    else
      var (s', verdict) := OnePass(hybrid, maxRetries, s, env(i));
      var pass := Pass(s.retryCount, env(i).clock, s.deadline, verdict);
      if verdict != Rewrote then Report(s', [pass], Stopped)
      else
        var rest := Passes(hybrid, maxRetries, s', env, i + 1);
        rest.(passes := [pass] + rest.passes)
  }

  // A follow-up question sets the counter to its limit before the loop.
  function Whole(hybrid: bool, followUp: bool, maxRetries: int, s: Shared, env: nat -> Meets): Report {
    Passes(hybrid, maxRetries, if followUp then s.(retryCount := maxRetries) else s, env, 0)
  }

  // ---------------------------------------------------------------- bounds

  predicate AskedForRetry(v: Verdict) {
    !v.SearchRaised? && !v.EvaluatorRaised? && !v.Good?
  }

  predicate CalledFallback(v: Verdict) {
    v.FellBack? || v.FallbackRaised?
  }

  predicate Timely(p: Pass) {
    p.deadline <= 0.0 || p.clock <= p.deadline - RESERVE
  }

  // The k-th search runs under count start + k, below the limit and before the reserve; only the
  // last pass may end otherwise than by a rewrite, and the fallback is called exactly by a SEARCH
  // pass under the last allowed count that still asks for a retry.
  ghost predicate Orderly(passes: seq<Pass>, hybrid: bool, maxRetries: int, start: int) {
    forall k | 0 <= k < |passes| ::
      && passes[k].count == start + k < maxRetries
      && Timely(passes[k])
      && (k < |passes| - 1 ==> passes[k].verdict == Rewrote)
      && (CalledFallback(passes[k].verdict) <==>
            !hybrid && AskedForRetry(passes[k].verdict) && passes[k].count == maxRetries - 1)
  }

  lemma {:induction false} PassesAreOrderly(hybrid: bool, maxRetries: int, s: Shared, env: nat -> Meets, i: nat)
    ensures Orderly(Passes(hybrid, maxRetries, s, env, i).passes, hybrid, maxRetries, s.retryCount)
    decreases maxRetries - s.retryCount
  {
    if s.retryCount < maxRetries && !TooLate(s, env(i).clock) {
      var (s', verdict) := OnePass(hybrid, maxRetries, s, env(i));
      if verdict == Rewrote {
        PassesAreOrderly(hybrid, maxRetries, s', env, i + 1);
      }
    }
  }

  function Fallbacks(passes: seq<Pass>): nat {
    if passes == [] then 0
    else Fallbacks(passes[..|passes| - 1]) + if CalledFallback(passes[|passes| - 1].verdict) then 1 else 0
  }

  lemma {:induction false} OnlyTheLastFallsBack(passes: seq<Pass>, hybrid: bool, maxRetries: int, start: int)
    requires Orderly(passes, hybrid, maxRetries, start)
    ensures Fallbacks(passes) <= 1 && (hybrid ==> Fallbacks(passes) == 0)
    ensures forall n | 0 <= n < |passes| :: Fallbacks(passes[..n]) == 0
  {
    if passes != [] {
      forall n | 0 <= n < |passes|
        ensures Fallbacks(passes[..n]) == 0
      {
        NoneFallsBack(passes[..n]);
      }
    }
  }

  lemma {:induction false} NoneFallsBack(passes: seq<Pass>)
    requires forall k | 0 <= k < |passes| :: !CalledFallback(passes[k].verdict)
    ensures Fallbacks(passes) == 0
  {
    if passes != [] { NoneFallsBack(passes[..|passes| - 1]); }
  }

  // Whatever the nodes write: at most maxRetries searches from count 0, none in the reserve of a
  // set deadline, at most one fallback; a follow-up question searches not at all.
  lemma SearchesAreBounded(hybrid: bool, followUp: bool, maxRetries: nat, s: Shared, env: nat -> Meets)
    requires s.retryCount == 0
    ensures var passes := Whole(hybrid, followUp, maxRetries, s, env).passes;
            && |passes| <= (if followUp then 0 else maxRetries)
            && (forall k | 0 <= k < |passes| :: Timely(passes[k]))
            && Fallbacks(passes) <= (if hybrid then 0 else 1)
            && (Fallbacks(passes) == 1 ==> |passes| == maxRetries && AskedForRetry(passes[maxRetries - 1].verdict))
  {
    var start := if followUp then s.(retryCount := maxRetries) else s;
    PassesAreOrderly(hybrid, maxRetries, start, env, 0);
    var passes := Passes(hybrid, maxRetries, start, env, 0).passes;
    OnlyTheLastFallsBack(passes, hybrid, maxRetries, start.retryCount);
    if |passes| > 0 {
      assert passes[|passes| - 1].count == start.retryCount + |passes| - 1;
    }
  }

  // ---------------------------------------------------------------- how many searches there are

  // No node raises or moves the deadline, and the evaluator always says whether to retry.
  ghost predicate Cooperative(env: nat -> Meets) {
    forall i: nat ::
      && env(i).search.Some? && env(i).evaluate.Some? && env(i).fallback.Some? && env(i).rewrite.Some?
      && env(i).evaluate.value.needsRetry.Some?
      && env(i).search.value.deadline.None? && env(i).evaluate.value.deadline.None?
          && env(i).rewrite.value.deadline.None?
  }

  predicate Satisfied(env: nat -> Meets, i: nat) {
    env(i).evaluate.Some? && env(i).evaluate.value.needsRetry == Some(false)
  }

  // The first satisfied pass among the n from i on, or n.
  function FirstGood(env: nat -> Meets, i: nat, n: nat): (k: nat)
    ensures k <= n
    decreases n
  {
    if n == 0 || Satisfied(env, i) then 0 else 1 + FirstGood(env, i + 1, n - 1)
  }

  // A pass searches exactly if its count is below the limit and its clock is not within the last 30
  // seconds before a set deadline.
  lemma PassSearchesIff(hybrid: bool, maxRetries: int, s: Shared, env: nat -> Meets, i: nat)
    ensures var r := Passes(hybrid, maxRetries, s, env, i);
            && (r.passes != [] <==>
                  s.retryCount < maxRetries && (s.deadline <= 0.0 || env(i).clock <= s.deadline - 30.0))
            && (r.passes != [] ==> r.passes[0].count == s.retryCount && r.passes[0].clock == env(i).clock)
            && (r.passes == [] ==>
                  r.state == s && r.ending == if s.retryCount >= maxRetries then Exhausted else OutOfTime)
  {
  }

  // Whether a retry is asked for once searcher and evaluator have answered.
  predicate Asked(s: Shared, search: Update, evaluate: Update) {
    if evaluate.needsRetry.Some? then evaluate.needsRetry.value
    else if search.needsRetry.Some? then search.needsRetry.value
    else s.needsRetry
  }

  // How a pass ends and the deadline and count it leaves, in terms of what its nodes answer: those not
  // called write nothing, and the count of a pass that goes on is one more, whatever they wrote.
  lemma PassFollowsItsNodes(hybrid: bool, maxRetries: int, s: Shared, e: Meets)
    ensures var (s', v) := OnePass(hybrid, maxRetries, s, e);
            && (v == SearchRaised <==> e.search.None?)
            && (v == EvaluatorRaised <==> e.search.Some? && e.evaluate.None?)
            && (e.search.None? ==> s' == s)
            && (e.search.Some? && e.evaluate.None? ==> s'.deadline == Or(e.search.value.deadline, s.deadline))
            && (e.search.Some? && e.evaluate.Some? ==>
                  var asked, last := Asked(s, e.search.value, e.evaluate.value), s.retryCount + 1 >= maxRetries;
                  && (v == Good <==> !asked)
                  && (v == Degraded <==> asked && last && hybrid)
                  && (v == FellBack <==> asked && last && !hybrid && e.fallback.Some?)
                  && (v == FallbackRaised <==> asked && last && !hybrid && e.fallback.None?)
                  && (v == Rewrote <==> asked && !last && e.rewrite.Some?)
                  && (v == RewriterRaised <==> asked && !last && e.rewrite.None?)
                  && (v == Rewrote ==> s'.retryCount == s.retryCount + 1)
                  && var judged := Or(e.evaluate.value.deadline, Or(e.search.value.deadline, s.deadline));
                     s'.deadline == (if v == FellBack then Or(e.fallback.value.deadline, judged)
                                     else if v == Rewrote then Or(e.rewrite.value.deadline, judged) else judged))
  {
  }

  // All the checks of the loop come in time.
  ghost predicate InTime(env: nat -> Meets, deadline: real) {
    deadline <= 0.0 || forall i: nat :: env(i).clock <= deadline - 30.0
  }

  // With such nodes and in time there is one search per pass up to the first satisfied one,
  // and the fallback is called exactly if all the allowed searches left a retry asked for.
  lemma {:induction false} SearchesUntilSatisfied(hybrid: bool, maxRetries: nat, s: Shared, env: nat -> Meets, i: nat)
    requires Cooperative(env) && s.retryCount < maxRetries && InTime(env, s.deadline)
    ensures var r, left := Passes(hybrid, maxRetries, s, env, i), maxRetries - s.retryCount;
            var k := FirstGood(env, i, left);
            && |r.passes| == (if k < left then k + 1 else left)
            && (r.passes[|r.passes| - 1].verdict == FellBack <==> !hybrid && k == left)
            && (r.passes[|r.passes| - 1].verdict == Good <==> k < left)
    decreases maxRetries - s.retryCount
  {
    var (s', verdict) := OnePass(hybrid, maxRetries, s, env(i));
    if verdict == Rewrote {
      SearchesUntilSatisfied(hybrid, maxRetries, s', env, i + 1);
    }
  }

  // ---------------------------------------------------------------- the loop as it runs

  class Agent {
    var retryCount: int
    var needsRetry: bool
    var deadline: real

    constructor (deadline: real)
      ensures Now() == Shared(0, false, deadline)
    {
      retryCount, needsRetry, this.deadline := 0, false, deadline;
    }

    function Now(): Shared
      reads this
    {
      Shared(retryCount, needsRetry, deadline)
    }

    // state.update(result).
    method Merge(u: Update)
      modifies this
      ensures Now() == Apply(old(Now()), u)
    {
      if u.retryCount.Some? {
        retryCount := u.retryCount.value;
      }
      if u.needsRetry.Some? {
        needsRetry := u.needsRetry.value;
      }
      if u.deadline.Some? {
        deadline := u.deadline.value;
      }
    }

    method SearchOnce(hybrid: bool, maxRetries: int, e: Meets) returns (verdict: Verdict)
      modifies this
      ensures (Now(), verdict) == OnePass(hybrid, maxRetries, old(Now()), e)
    {
      var count := retryCount;
      if e.search.None? {
        return SearchRaised;
      }
      Merge(e.search.value);
      if e.evaluate.None? {
        return EvaluatorRaised;
      }
      Merge(e.evaluate.value);
      if !needsRetry {
        return Good;
      }
      if count >= maxRetries - 1 {
        if hybrid {
          return Degraded;
        }
        if e.fallback.None? {
          return FallbackRaised;
        }
        Merge(e.fallback.value);
        return FellBack;
      }
      if e.rewrite.None? {
        return RewriterRaised;
      }
      Merge(e.rewrite.value);
      retryCount := count + 1;
      verdict := Rewrote;
    }

    method Search(hybrid: bool, followUp: bool, maxRetries: int, env: nat -> Meets)
        returns (passes: seq<Pass>, ending: Ending)
      modifies this
      ensures Report(Now(), passes, ending) == Whole(hybrid, followUp, maxRetries, old(Now()), env)
    {
      if followUp {
        retryCount := maxRetries;
      }
      ghost var goal := Passes(hybrid, maxRetries, Now(), env, 0);
      passes, ending := [], Exhausted;
      var i := 0;
      RunIsAhead(hybrid, maxRetries, Now(), env);
      while retryCount < maxRetries
        invariant 0 <= i && ending == Exhausted && Ahead(goal, passes, hybrid, maxRetries, Now(), env, i)
        decreases maxRetries - retryCount
      {
        var e := env(i);
        StopsOrGoesOn(goal, passes, hybrid, maxRetries, Now(), env, i);
        if deadline > 0.0 && e.clock > deadline - RESERVE {
          ending := OutOfTime;
          return;
        }
        var count, due := retryCount, deadline;
        var verdict := SearchOnce(hybrid, maxRetries, e);
        passes := passes + [Pass(count, e.clock, due, verdict)];
        if verdict != Rewrote {
          ending := Stopped;
          return;
        }
        i := i + 1;
      }
      StopsOrGoesOn(goal, passes, hybrid, maxRetries, Now(), env, i);
    }
  }

  // The whole run is the passes so far followed by the rest of it.
  ghost predicate Ahead(goal: Report, passes: seq<Pass>, hybrid: bool, maxRetries: int, s: Shared, env: nat -> Meets,
                        i: nat) {
    var rest := Passes(hybrid, maxRetries, s, env, i);
    goal == rest.(passes := passes + rest.passes)
  }

  lemma RunIsAhead(hybrid: bool, maxRetries: int, s: Shared, env: nat -> Meets)
    ensures Ahead(Passes(hybrid, maxRetries, s, env, 0), [], hybrid, maxRetries, s, env, 0)
  {
    var goal := Passes(hybrid, maxRetries, s, env, 0);
    assert [] + goal.passes == goal.passes;
  }

  lemma StopsOrGoesOn(goal: Report, passes: seq<Pass>, hybrid: bool, maxRetries: int, s: Shared, env: nat -> Meets,
                      i: nat)
    requires Ahead(goal, passes, hybrid, maxRetries, s, env, i)
    ensures if s.retryCount >= maxRetries then goal == Report(s, passes, Exhausted)
            else if TooLate(s, env(i).clock) then goal == Report(s, passes, OutOfTime)
            else
              var (s', verdict) := OnePass(hybrid, maxRetries, s, env(i));
              var longer := passes + [Pass(s.retryCount, env(i).clock, s.deadline, verdict)];
              if verdict != Rewrote then goal == Report(s', longer, Stopped)
              else Ahead(goal, longer, hybrid, maxRetries, s', env, i + 1)
  {
    if s.retryCount >= maxRetries || TooLate(s, env(i).clock) {
      assert passes + [] == passes;
    } else {
      var (s', verdict) := OnePass(hybrid, maxRetries, s, env(i));
      var pass := Pass(s.retryCount, env(i).clock, s.deadline, verdict);
      var rest := Passes(hybrid, maxRetries, s', env, i + 1).passes;
      assert passes + ([pass] + rest) == (passes + [pass]) + rest;
    }
  }
}
