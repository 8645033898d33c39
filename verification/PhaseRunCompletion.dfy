/** When a phase completes, said of the agents' answers alone: no loop, no ledger, no traces. */
module PhaseRunCompletion {
  import opened Vocabulary
  import opened Gate
  import opened PhaseRun

  /** A declaration the gate accepts, that verifies nothing and blocks nothing. */
  predicate Declares(env: Env, body: Body) {
    var gate := ParseGateResult(env.judge, body);
    gate.Ok? && Get(gate.value.record, Verifies) == Null && !gate.value.declared.Blocks()
  }

  /** What the Worker of iteration `i` must account for: what the review before it raised. */
  function Raised(script: Script, i: int): set<FindingId> {
    if i < 2 || i - 1 > |script.reviewers| || !script.reviewers[i - 2].ReviewerOutput? then {}
    else
      var findings := script.reviewers[i - 2].text.findings;
      set f | f in findings
  }

  /** The Worker of iteration `i` did its work, declared nothing blocking and resolved exactly what
      was raised. */
  predicate Works(env: Env, script: Script, i: int) {
    && 1 <= i <= |script.workers| && script.workers[i - 1].WorkerOutput?
    && var text := script.workers[i - 1].text;
    && Declares(env, text.body) && text.status.WorkComplete?
    && (Raised(script, i) != {} ==> text.resolutions.Keys == Raised(script, i))
  }

  /** The Reviewer of iteration `i` delivered a coherent report with this verdict. */
  predicate Reviews(env: Env, script: Script, i: int, passes: bool) {
    && 1 <= i <= |script.reviewers| && script.reviewers[i - 1].ReviewerOutput?
    && var text := script.reviewers[i - 1].text;
    && ReviewVerdict(text) == Some(passes) && Declares(env, text.body)
  }

  /** The first review to pass is the one of iteration `n`. */
  predicate CompletesAt(env: Env, script: Script, n: int) {
    && (forall i :: 1 <= i <= n ==> Works(env, script, i))
    && (forall i :: 1 <= i < n ==> Reviews(env, script, i, false))
    && Reviews(env, script, n, true)
  }

  /** Before iteration `st.iteration` every round failed its review and asked for another. */
  ghost predicate Underway(env: Env, script: Script, st: Loop) {
    && st.iteration >= 1 && st.previous == Raised(script, st.iteration)
    && forall i :: 1 <= i < st.iteration ==> Works(env, script, i) && Reviews(env, script, i, false)
  }

  lemma WorkerGoesOn(env: Env, phase: Phase, script: Script, st: Loop)
    requires Underway(env, script, st) && !env.risk.Low?
    ensures
      var half := WorkerHalf(env, phase, script, st);
      && (half.HalfOver? ==> !half.end.result.status.Completed? && !Works(env, script, st.iteration))
      && (half.ToReviewer? ==>
            && half.st.iteration == st.iteration && half.st.previous == st.previous
            && (half.verifying <==> !Works(env, script, st.iteration)))
  {
    hide Stamped, ParseGateResult, KeyOf, AddResolutions, Raised;
  }

  lemma ReviewDecides(env: Env, phase: Phase, script: Script, w: Half)
    requires w.ToReviewer? && w.st.iteration >= 1
    ensures
      var i := w.st.iteration;
      match ReviewerHalf(env, phase, script, w)
      case Again(st) =>
        && !w.verifying && Reviews(env, script, i, false)
        && st.iteration == i + 1 && st.previous == Raised(script, i + 1)
      case Over(end) =>
        && (end.result.status.Completed? <==> !w.verifying && Reviews(env, script, i, true))
        && (!w.verifying ==> !Reviews(env, script, i, false))
        && (end.result.status.Completed? ==> end.result.iteration == i)
  {
    hide Stamped, ParseGateResult, AddReviews, EvaluateVerification, VerificationBinds;
  }

  lemma VerdictsDiffer(env: Env, script: Script, i: int)
    ensures !(Reviews(env, script, i, true) && Reviews(env, script, i, false))
  {
  }

  lemma {:induction false} RunFromCompletesIff(env: Env, phase: Phase, budget: int, script: Script, st: Loop)
    requires Underway(env, script, st) && !env.risk.Low?
    ensures
      var r := RunFrom(env, phase, budget, script, st).result;
      && (r.status.Completed? <==> exists n :: st.iteration <= n <= budget && CompletesAt(env, script, n))
      && (r.status.Completed? ==> CompletesAt(env, script, r.iteration))
    decreases budget - st.iteration
  {
    hide WorkerHalf, ReviewerHalf, Works, Reviews, Raised;
    if st.iteration <= budget {
      var i := st.iteration;
      WorkerGoesOn(env, phase, script, st);
      VerdictsDiffer(env, script, i);
      var w := WorkerHalf(env, phase, script, st);
      if w.ToReviewer? {
        ReviewDecides(env, phase, script, w);
        match ReviewerHalf(env, phase, script, w) {
          case Again(st') =>
            RunFromCompletesIff(env, phase, budget, script, st');
            assert !CompletesAt(env, script, i);
          case Over(end) =>
            if end.result.status.Completed? {
              assert CompletesAt(env, script, i);
            }
        }
      }
    }
  }

  /** Above LOW a phase completes exactly when, for some iteration n within its budget, the first n
      Workers worked, the first n - 1 reviews failed with findings the next Worker resolved exactly,
      and the n-th review passed; it then completes in iteration n. */
  lemma PhaseCompletesIff(env: Env, phase: Phase, budget: int, script: Script, ledger: seq<Record>,
                          dispatches: seq<Dispatch>)
    requires !env.risk.Low?
    ensures
      var r := RunPhase(env, phase, budget, script, ledger, dispatches).result;
      && (r.status.Completed? <==> exists n :: 1 <= n <= budget && CompletesAt(env, script, n))
      && (r.status.Completed? ==> CompletesAt(env, script, r.iteration))
  {
    hide RunFrom, CompletesAt;
    RunFromCompletesIff(env, phase, budget, script, Start(ledger, dispatches));
  }

  /** At LOW a phase completes exactly when there is budget for one iteration, its only Worker worked,
      and, in the phases that write code, reported that its unit tests pass. */
  lemma LowCompletesIff(env: Env, phase: Phase, budget: int, script: Script, ledger: seq<Record>,
                        dispatches: seq<Dispatch>)
    requires env.risk.Low?
    ensures
      RunPhase(env, phase, budget, script, ledger, dispatches).result.status.Completed? <==>
        && budget >= 1 && Works(env, script, 1)
        && (phase in {Implementation, Bugfix, Refactoring} ==> script.workers[0].text.unitTest.TestsPass?)
  {
    hide Stamped, ParseGateResult, KeyOf;
    var st := Start(ledger, dispatches);
    assert Round(env, phase, script, st).Over?;
  }

  /** At LOW, in the phases that write code, work that is otherwise complete is stopped when its Worker
      reports its unit tests blocked, and when it reports nothing about them. */
  lemma LowSafetyFloor(env: Env, phase: Phase, budget: int, script: Script, ledger: seq<Record>,
                       dispatches: seq<Dispatch>)
    requires env.risk.Low? && budget >= 1 && Works(env, script, 1) && phase in {Implementation, Bugfix, Refactoring}
    ensures
      var r := RunPhase(env, phase, budget, script, ledger, dispatches).result;
      match script.workers[0].text.unitTest
      case TestsPass => r.status == Completed && r.reason == NoReason
      case TestsBlocked => r.status == Stopped && r.reason == UnitTestBlocked && r.block.None?
      case NotReported => r.status == Stopped && r.reason == UnitTestEvidenceMissing && r.block.None?
  {
    hide Stamped, ParseGateResult, KeyOf;
    var st := Start(ledger, dispatches);
    assert Round(env, phase, script, st).Over?;
  }
}
