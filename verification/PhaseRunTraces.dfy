/** Findings are conserved: every finding a Reviewer raises is resolved exactly once, in the next
    iteration, before the phase can complete; and a run's outcome does not depend on budget it
    did not need. */
module PhaseRunTraces {
  import opened Vocabulary
  import opened Sequences
  import opened Gate
  import opened PhaseRun

  // ---- one finding's history ----

  function Iterations(resolutions: seq<(int, string)>): seq<int> {
    if resolutions == [] then []
    else Iterations(resolutions[..|resolutions| - 1]) + [resolutions[|resolutions| - 1].0]
  }

  function NextIterations(reviews: seq<int>): seq<int> {
    if reviews == [] then []
    else NextIterations(reviews[..|reviews| - 1]) + [reviews[|reviews| - 1] + 1]
  }

  /** Raised at increasing iterations, none later than `last`. */
  predicate Ordered(reviews: seq<int>, last: int) {
    && (forall i, j | 0 <= i < j < |reviews| :: reviews[i] < reviews[j])
    && (forall i | 0 <= i < |reviews| :: reviews[i] <= last)
  }

  /** Resolved exactly once after each time it was raised, in the very next iteration. */
  predicate Resolved(t: Trace, last: int) {
    Ordered(t.reviews, last) && Iterations(t.resolutions) == NextIterations(t.reviews)
  }

  /** Raised once more, at iteration `last`, and resolved every time before. */
  predicate Outstanding(t: Trace, last: int) {
    && t.reviews != [] && t.reviews[|t.reviews| - 1] == last && Ordered(t.reviews, last)
    && Iterations(t.resolutions) == NextIterations(t.reviews[..|t.reviews| - 1])
  }

  lemma ResolvingSettles(t: Trace, last: int, resolution: string)
    requires Outstanding(t, last)
    ensures Resolved(t.(resolutions := t.resolutions + [(last + 1, resolution)]), last)
  {
    var rs := t.resolutions + [(last + 1, resolution)];
    assert rs[..|rs| - 1] == t.resolutions;
  }

  lemma RaisingAgain(t: Trace, last: int, now: int)
    requires Resolved(t, last) && last < now
    ensures Outstanding(t.(reviews := t.reviews + [now]), now)
  {
    var rs := t.reviews + [now];
    assert rs[..|rs| - 1] == t.reviews;
  }

  lemma RaisingFirst(now: int)
    ensures Outstanding(Trace(now, [now], []), now)
  {
    assert [now][..0] == [];
  }

  // ---- one iteration ----

  lemma {:induction false} AddReviewsIs(traces: Traces, findings: seq<FindingId>, now: int)
    requires Distinct(findings)
    ensures
      var traces' := AddReviews(traces, findings, now);
      && traces'.Keys == traces.Keys + Members(findings)
      && (forall f | f in traces && f !in findings :: traces'[f] == traces[f])
      && (forall f | f in findings ::
            traces'[f] == if f in traces then traces[f].(reviews := traces[f].reviews + [now])
                          else Trace(now, [now], []))
    decreases |findings|
  {
    if findings != [] {
      var before, last := findings[..|findings| - 1], findings[|findings| - 1];
      assert findings == before + [last];
      DistinctConcat(before, [last]);
      assert Members([last]) == {last} && last in Members([last]);
      AddReviewsIs(traces, before, now);
      assert last !in before;
      assert [] + [now] == [now];
    } else {
      assert Members(findings) == {};
    }
  }

  /** Before iteration `n`: what the last review raised is outstanding, all else is resolved. */
  predicate TracesAt(traces: Traces, previous: set<FindingId>, n: int) {
    && previous <= traces.Keys
    && (forall f | f in traces :: if f in previous then Outstanding(traces[f], n - 1) else Resolved(traces[f], n - 1))
  }

  predicate AllResolved(traces: Traces, last: int) {
    forall f | f in traces :: Resolved(traces[f], last)
  }

  /** Answering exactly the findings outstanding settles every trace. */
  lemma AnsweringSettles(traces: Traces, previous: set<FindingId>, n: nat, resolutions: map<FindingId, string>)
    requires TracesAt(traces, previous, n) && n >= 1
    ensures resolutions.Keys == previous ==> AllResolved(AddResolutions(traces, resolutions, n), n - 1)
    ensures previous == {} ==> AllResolved(traces, n - 1)
  {
    hide Resolved, Outstanding;
    if resolutions.Keys == previous {
      var traces' := AddResolutions(traces, resolutions, n);
      forall f | f in traces' ensures Resolved(traces'[f], n - 1) {
        if f in previous {
          ResolvingSettles(traces[f], n - 1, resolutions[f]);
        }
      }
    }
  }

  lemma WorkerHalfTraces(env: Env, phase: Phase, script: Script, st: Loop)
    requires TracesAt(st.traces, st.previous, st.iteration)
    ensures
      var h := WorkerHalf(env, phase, script, st);
      && (h.ToReviewer? ==> AllResolved(h.st.traces, st.iteration - 1))
      && (h.HalfOver? && h.end.result.status.Completed? ==> AllResolved(h.end.result.traces, st.iteration - 1))
  {
    hide TracesAt, AllResolved, AddResolutions, ParseGateResult, Stamped, KeyOf;
    if 1 <= st.iteration <= |script.workers| && script.workers[st.iteration - 1].WorkerOutput? {
      AnsweringSettles(st.traces, st.previous, st.iteration, script.workers[st.iteration - 1].text.resolutions);
    }
  }

  /** Raising findings, each once, leaves exactly those outstanding. */
  lemma RaisingLeaves(traces: Traces, text: ReviewerText, n: nat)
    requires AllResolved(traces, n - 1) && n >= 1 && ReviewVerdict(text).Some?
    ensures TracesAt(AddReviews(traces, text.findings, n), (set f | f in text.findings), n + 1)
  {
    hide Resolved, Outstanding, AddReviews;
    assert Distinct(text.findings) by {
      forall i, j | 0 <= i < j < |text.findings| ensures text.findings[i] != text.findings[j] {
      }
    }
    AddReviewsIs(traces, text.findings, n);
    var traces' := AddReviews(traces, text.findings, n);
    forall f | f in traces'
      ensures if f in text.findings then Outstanding(traces'[f], n) else Resolved(traces'[f], n)
    {
      if f in text.findings && f in traces {
        RaisingAgain(traces[f], n - 1, n);
      } else if f in text.findings {
        RaisingFirst(n);
      } else {
        assert f in Members(text.findings) || f in traces;
        LaterBound(traces[f], n - 1, n);
      }
    }
  }

  lemma ReviewerHalfTraces(env: Env, phase: Phase, script: Script, w: Half)
    requires w.ToReviewer? && AllResolved(w.st.traces, w.st.iteration - 1)
    ensures
      match ReviewerHalf(env, phase, script, w)
      case Again(st') => TracesAt(st'.traces, st'.previous, st'.iteration)
      case Over(end) => end.result.status.Completed? ==> AllResolved(end.result.traces, w.st.iteration - 1)
  {
    hide TracesAt, AllResolved, ReviewVerdict, ParseGateResult, Stamped, VerificationBinds, EvaluateVerification,
         AddReviews;
    var n := w.st.iteration;
    if 1 <= n <= |script.reviewers| && script.reviewers[n - 1].ReviewerOutput? {
      if ReviewVerdict(script.reviewers[n - 1].text).Some? {
        RaisingLeaves(w.st.traces, script.reviewers[n - 1].text, n);
      }
    }
  }

  lemma LaterBound(t: Trace, last: int, later: int)
    requires Resolved(t, last) && last <= later
    ensures Resolved(t, later)
  {
  }

  // ---- the run ----

  lemma {:induction false} RunFromConserves(env: Env, phase: Phase, budget: int, script: Script, st: Loop)
    requires TracesAt(st.traces, st.previous, st.iteration)
    requires st.iteration <= budget + 1 || st.traces == map[]
    ensures
      var r := RunFrom(env, phase, budget, script, st).result;
      && (r.status.Completed? ==> AllResolved(r.traces, r.iteration))
      && (r.status.Escalated? ==>
            forall f | f in r.traces :: Resolved(r.traces[f], budget) || Outstanding(r.traces[f], budget))
    decreases budget - st.iteration
  {
    hide WorkerHalf, ReviewerHalf, Resolved, Outstanding;
    if st.iteration <= budget {
      WorkerHalfTraces(env, phase, script, st);
      var half := WorkerHalf(env, phase, script, st);
      CompletesWhereItIs(env, phase, script, st);
      if half.ToReviewer? {
        ReviewerHalfTraces(env, phase, script, half);
        if ReviewerHalf(env, phase, script, half).Again? {
          RunFromConserves(env, phase, budget, script, ReviewerHalf(env, phase, script, half).st);
        }
      }
      var end := RunFrom(env, phase, budget, script, st).result;
      if Round(env, phase, script, st).Over? && end.status.Completed? {
        forall f | f in end.traces ensures Resolved(end.traces[f], end.iteration) {
          LaterBound(end.traces[f], st.iteration - 1, end.iteration);
        }
      }
    }
  }

  lemma CompletesWhereItIs(env: Env, phase: Phase, script: Script, st: Loop)
    ensures Round(env, phase, script, st).Over? ==>
              var r := Round(env, phase, script, st).end.result;
              r.iteration == st.iteration && !r.status.Escalated?
  {
    hide WorkerHalf, ReviewerHalf;
    WorkerStaysInIteration(env, phase, script, st);
    var w := WorkerHalf(env, phase, script, st);
    if w.ToReviewer? {
      ReviewerStaysInIteration(env, phase, script, w);
    }
  }

  lemma WorkerStaysInIteration(env: Env, phase: Phase, script: Script, st: Loop)
    ensures
      var w := WorkerHalf(env, phase, script, st);
      if w.HalfOver? then w.end.result.iteration == st.iteration && !w.end.result.status.Escalated?
      else w.st.iteration == st.iteration
  {
    hide ParseGateResult, Stamped, KeyOf, AddResolutions, Get;
  }

  lemma ReviewerStaysInIteration(env: Env, phase: Phase, script: Script, w: Half)
    requires w.ToReviewer?
    ensures
      var turn := ReviewerHalf(env, phase, script, w);
      turn.Over? ==> turn.end.result.iteration == w.st.iteration && !turn.end.result.status.Escalated?
  {
    hide ParseGateResult, Stamped, AddReviews, EvaluateVerification, VerificationBinds, ReviewVerdict;
  }

  /** At COMPLETED every finding was resolved exactly once after each time it was raised, in the
      next iteration; at ESCALATED the only unresolved ones are those the last review raised. */
  lemma FindingsAreConserved(env: Env, phase: Phase, budget: int, script: Script, ledger: seq<Record>,
                             dispatches: seq<Dispatch>)
    ensures
      var r := RunPhase(env, phase, budget, script, ledger, dispatches).result;
      && (r.status.Completed? ==> AllResolved(r.traces, r.iteration))
      && (r.status.Escalated? ==>
            forall f | f in r.traces :: Resolved(r.traces[f], budget) || Outstanding(r.traces[f], budget))
  {
    RunFromConserves(env, phase, budget, script, Start(ledger, dispatches));
  }

  // ---- budget ----

  /** A run that ends for any reason but its budget ends the same way under every larger budget. */
  lemma {:induction false} LargerBudgetChangesNothing(env: Env, phase: Phase, budget: int, larger: int,
                                                      script: Script, st: Loop)
    requires budget <= larger && !RunFrom(env, phase, budget, script, st).result.status.Escalated?
    ensures RunFrom(env, phase, larger, script, st) == RunFrom(env, phase, budget, script, st)
    decreases budget - st.iteration
  {
    hide Round;
    if Round(env, phase, script, st).Again? {
      LargerBudgetChangesNothing(env, phase, budget, larger, script, Round(env, phase, script, st).st);
    }
  }
}
