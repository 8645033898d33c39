/** The harness as it runs (`E2EHarness` in scripts/e2e_harness.py): an object that appends to its
    ledger and its dispatch log, proved to do exactly what the run's specification says. */
module Harness {
  import opened Vocabulary
  import opened Gate
  import opened PhaseRun
  import opened Phases
  import opened Workflow

  class E2EHarness {
    const env: Env
    const maxIterations: int
    var ledger: seq<Record>
    var dispatches: seq<Dispatch>

    // the variables of a workflow run
    var iterations: map<Phase, int>
    var attempts: nat
    var verdict: Option<bool>
    var settled: Option<Settled>
    var corrections: seq<(Phase, int)>
    var revalidations: seq<(Phase, int)>
    var corrected: seq<Corrected>
    var gates: seq<GateRun>
    var guards: seq<Guard>

    constructor (env: Env, maxIterations: int)
      ensures this.env == env && this.maxIterations == maxIterations
      ensures Snapshot() == Wf(map[], 0, None, None, [], [], [], [], [], [], [])
    {
      this.env, this.maxIterations := env, maxIterations;
      ledger, dispatches := [], [];
      iterations, attempts, verdict, settled := map[], 0, None, None;
      corrections, revalidations, corrected, gates, guards := [], [], [], [], [];
    }

    /** Everything a run has recorded so far. */
    function Snapshot(): Wf
      reads this
    {
      Wf(iterations, attempts, verdict, settled, ledger, dispatches, corrections, revalidations, corrected, gates,
         guards)
    }

    /** Publish one immutable record under the next sequence number, and answer its key. */
    method AppendDecisionRecord(record: Record, phase: Phase, iteration: int, agent: Agent, verdict: Json,
                                verifies: Json)
      returns (key: Json)
      modifies this`ledger
      ensures ledger == old(ledger) + [Stamped(env, record,
                                               Slot(phase, iteration, agent, verdict, verifies, |old(ledger)|))]
      ensures key == KeyOf(ledger[|ledger| - 1])
    {
      hide Stamped, KeyOf;
      var published := Stamped(env, record, Slot(phase, iteration, agent, verdict, verifies, |ledger|));
      ledger := ledger + [published];
      key := KeyOf(published);
    }

    /** Every raised finding's trace gains this iteration, opening the trace when it is new. */
    method RecordReviews(traces: Traces, findings: seq<FindingId>, iteration: int) returns (now: Traces)
      ensures now == AddReviews(traces, findings, iteration)
      ensures (set f | f in findings) <= now.Keys
    {
      now := traces;
      for i := 0 to |findings|
        invariant now == AddReviews(traces, findings[..i], iteration)
        invariant forall f :: f in findings[..i] ==> f in now
      {
        var trace := if findings[i] in now then now[findings[i]] else Trace(iteration, [], []);
        now := now[findings[i] := trace.(reviews := trace.reviews + [iteration])];
        assert findings[..i + 1][..i] == findings[..i];
      }
      assert findings[..|findings|] == findings;
    }

    /** Every resolution the Worker gives is added to its finding's trace. */
    method RecordResolutions(traces: Traces, resolutions: map<FindingId, string>, iteration: int) returns (now: Traces)
      requires resolutions.Keys <= traces.Keys
      ensures now == AddResolutions(traces, resolutions, iteration)
    {
      now := traces;
      var pending := resolutions.Keys;
      while pending != {}
        invariant pending <= resolutions.Keys && now.Keys == traces.Keys
        invariant forall f :: f in traces ==>
          now[f] == if f in resolutions && f !in pending
                    then traces[f].(resolutions := traces[f].resolutions + [(iteration, resolutions[f])])
                    else traces[f]
      {
        var f :| f in pending;
        now := now[f := now[f].(resolutions := now[f].resolutions + [(iteration, resolutions[f])])];
        pending := pending - {f};
      }
    }

    /** The Worker's half of one iteration: its dispatch, then its declaration on the decision axis,
        and only then its result on the quality axis. */
    method RunWorker(phase: Phase, script: Script, iteration: nat, previous: set<FindingId>, traces: Traces,
                     workers: seq<WorkerText>, reviews: seq<bool>)
      returns (over: Option<RunResult>, after: Traces, attempts: seq<WorkerText>, gate: Option<GateResult>, key: Json)
      requires previous <= traces.Keys
      modifies this`ledger, this`dispatches
      ensures
        var half := WorkerHalf(env, phase, script,
                               Loop(iteration, previous, traces, workers, reviews, old(ledger), old(dispatches)));
        match over
        case Some(result) => half == HalfOver(End(result, ledger, dispatches))
        case None =>
          && gate.Some?
          && half == ToReviewer(Loop(iteration, previous, after, attempts, reviews, ledger, dispatches),
                                gate.value.declared.Blocks(), gate.value.declared, gate.value.record, key)
      ensures after.Keys == traces.Keys
    {
      hide Stamped, KeyOf, ParseGateResult;
      after, attempts, gate, key := traces, workers, None, Null;
      if iteration == 0 || iteration > |script.workers| {
        over := Some(RunResult(iteration, attempts, reviews, after, Errored, WorkerExhausted, None));
        return;
      }
      dispatches := dispatches + [Dispatch(WorkerAgent, phase, iteration, |ledger|)];
      var turn := script.workers[iteration - 1];
      if turn.WorkerExit? {
        over := Some(RunResult(iteration, attempts, reviews, after, Errored, WorkerUnexpectedExit(turn.code), None));
        return;
      }
      if turn.WorkerMalformed? {
        over := Some(RunResult(iteration, attempts, reviews, after, Errored, MalformedWorkerOutput, None));
        return;
      }
      var text := turn.text;
      attempts := attempts + [text];

      var parsed := ParseGateResult(env.judge, text.body);
      if parsed.Ok? && Get(parsed.value.record, Verifies) != Null {
        parsed := Err(InputUnbound);
      }
      if parsed.Err? {
        over := Some(RunResult(iteration, attempts, reviews, after, Stopped, Refused(parsed.error),
                               Some(InputDefect(parsed.error))));
        return;
      }
      gate := Some(parsed.value);
      var declared, record := parsed.value.declared, parsed.value.record;
      key := AppendDecisionRecord(record, phase, iteration, WorkerAgent, Str(Raw("")), Null);
      if declared.Blocks() && env.risk.Low? {
        var code := Get(record, ReasonCode);
        over := Some(RunResult(iteration, attempts, reviews, after, Stopped, Refused(Gate.Blocked(declared, code)),
                               Some(DecisionBlock(declared, code))));
        return;
      }

      if text.status.WorkBlocked? && !declared.Blocks() {
        over := Some(RunResult(iteration, attempts, reviews, after, Stopped, WorkerBlocked, None));
        return;
      }
      if UnitTestGated(phase) && env.risk.Low? && !text.unitTest.TestsPass? {
        over := Some(RunResult(iteration, attempts, reviews, after, Stopped,
                               if text.unitTest.TestsBlocked? then UnitTestBlocked else UnitTestEvidenceMissing, None));
        return;
      }
      if previous != {} {
        if text.resolutions.Keys != previous {
          over := Some(RunResult(iteration, attempts, reviews, after, Errored, ResolutionTraceIncomplete, None));
          return;
        }
        after := RecordResolutions(after, text.resolutions, iteration);
      }
      over := None;
      if env.risk.Low? {
        over := Some(RunResult(iteration, attempts, reviews, after, Completed, NoReason, None));
      }
    }

    /** The Reviewer's half: in verification mode its record settles the Worker's block, whatever
        its verdict; otherwise its declaration is filed before its verdict is read. `found` is what
        the next iteration must resolve. */
    method RunReviewer(phase: Phase, script: Script, iteration: nat, previous: set<FindingId>, traces: Traces,
                       workers: seq<WorkerText>, reviews: seq<bool>, worker: GateResult, key: Json)
      returns (over: Option<RunResult>, after: Traces, attempts: seq<bool>, found: set<FindingId>)
      modifies this`ledger, this`dispatches
      ensures
        var st := Loop(iteration, previous, traces, workers, reviews, old(ledger), old(dispatches));
        var turn := ReviewerHalf(env, phase, script,
                                 ToReviewer(st, worker.declared.Blocks(), worker.declared, worker.record, key));
        match over
        case Some(result) => turn == Over(End(result, ledger, dispatches))
        case None =>
          && turn == Again(Loop(iteration + 1, found, after, workers, attempts, ledger, dispatches))
          && found <= after.Keys
    {
      hide Stamped, KeyOf, ParseGateResult, AddReviews, VerificationBinds, EvaluateVerification, ReviewVerdict;
      after, attempts, found := traces, reviews, previous;
      if iteration == 0 || iteration > |script.reviewers| {
        over := Some(RunResult(iteration, workers, attempts, after, Errored, ReviewerExhausted, None));
        return;
      }
      dispatches := dispatches + [Dispatch(ReviewerAgent, phase, iteration, |ledger|)];
      var turn := script.reviewers[iteration - 1];
      if turn.ReviewerModified? {
        over := Some(RunResult(iteration, workers, attempts, after, Errored, ReviewerModifiedProtectedArtifact, None));
        return;
      }
      if turn.ReviewerExit? {
        over := Some(RunResult(iteration, workers, attempts, after, Errored, ReviewerUnexpectedExit(turn.code), None));
        return;
      }
      if turn.ReviewerMalformed? || ReviewVerdict(turn.text).None? {
        over := Some(RunResult(iteration, workers, attempts, after, Errored, MalformedReviewerOutput, None));
        return;
      }
      var text := turn.text;
      attempts := attempts + [text.passes];

      var gate := ParseGateResult(env.judge, text.body);
      if gate.Err? {
        over := Some(RunResult(iteration, workers, attempts, after, Stopped, Refused(gate.error),
                               Some(InputDefect(gate.error))));
        return;
      }
      var declared, record := gate.value.declared, gate.value.record;
      if worker.declared.Blocks() {
        over := Verify(phase, iteration, workers, attempts, after, text.passes, worker, key, gate.value);
        return;
      }
      if Get(record, Verifies) != Null {
        over := Some(RunResult(iteration, workers, attempts, after, Stopped, Refused(InputUnbound),
                               Some(InputDefect(InputUnbound))));
        return;
      }
      var _ := AppendDecisionRecord(record, phase, iteration, ReviewerAgent, VerdictText(text.passes), Null);
      if declared.Blocks() {
        var code := Get(record, ReasonCode);
        after := RecordReviews(after, text.findings, iteration);
        over := Some(RunResult(iteration, workers, attempts, after, Stopped, Refused(Gate.Blocked(declared, code)),
                               Some(DecisionBlock(declared, code))));
        return;
      }
      if text.passes {
        over := Some(RunResult(iteration, workers, attempts, after, Completed, NoReason, None));
        return;
      }
      after := RecordReviews(after, text.findings, iteration);
      found := set f | f in text.findings;
      over := None;
    }

    /** A Reviewer verifying a Worker's block: always terminal. */
    method Verify(phase: Phase, iteration: nat, workers: seq<WorkerText>, reviews: seq<bool>, traces: Traces,
                  passes: bool, worker: GateResult, key: Json, reviewer: GateResult)
      returns (over: Option<RunResult>)
      modifies this`ledger
      ensures over.Some?
      ensures forall previous: set<FindingId>, w: Half ::
        w.ToReviewer? && w.key == key && w.state == worker.declared && w.record == worker.record ==>
        VerifiedTurn(env, phase, Loop(iteration, previous, traces, workers, reviews, old(ledger), dispatches),
                     passes, w, reviewer)
        == End(over.value, ledger, dispatches)
    {
      hide Stamped, KeyOf, EvaluateVerification;
      if !VerificationBinds(reviewer.record, key, Settled(env.run, Str(PhaseName(phase)), Int(iteration))) {
        over := Some(RunResult(iteration, workers, reviews, traces, Stopped, Refused(InputUnbound),
                               Some(InputDefect(InputUnbound))));
        return;
      }
      var _ := AppendDecisionRecord(reviewer.record, phase, iteration, ReviewerAgent, VerdictText(passes),
                                    reviewer.record[Verifies]);
      var outcome := EvaluateVerification(env.judge, worker.declared, worker.record, reviewer.declared,
                                          reviewer.record);
      over := Some(RunResult(iteration, workers, reviews, traces, Stopped, Refused(outcome.reason),
                             Some(DecisionBlock(outcome.state, outcome.code))));
    }

    /** One phase's Worker -> Reviewer loop, at most `budget` times round. */
    method Run(phase: Phase, budget: int, script: Script) returns (result: RunResult)
      modifies this`ledger, this`dispatches
      ensures End(result, ledger, dispatches) == RunPhase(env, phase, budget, script, old(ledger), old(dispatches))
    {
      hide WorkerHalf, ReviewerHalf;
      var workers: seq<WorkerText>, reviews: seq<bool> := [], [];
      var traces: Traces, previous: set<FindingId> := map[], {};
      var iteration := 1;
      while iteration <= budget
        invariant iteration >= 1 && previous <= traces.Keys
        invariant RunFrom(env, phase, budget, script,
                          Loop(iteration, previous, traces, workers, reviews, ledger, dispatches))
                  == RunPhase(env, phase, budget, script, old(ledger), old(dispatches))
        decreases budget - iteration
      {
        var over, gate, key;
        over, traces, workers, gate, key := RunWorker(phase, script, iteration, previous, traces, workers, reviews);
        if over.Some? {
          return over.value;
        }
        over, traces, reviews, previous := RunReviewer(phase, script, iteration, previous, traces, workers, reviews,
                                                       gate.value, key);
        if over.Some? {
          return over.value;
        }
        iteration := iteration + 1;
      }
      return RunResult(budget, workers, reviews, traces, Escalated, MaxIterationsReached, None);
    }

    // ---- a workflow run ----

    /** Open the ledger of a new run with its run-entry record. */
    method OpenRun(s: Scenario)
      modifies this
      ensures Snapshot() == Opened(env, s)
    {
      hide RunEntryRecord;
      ledger, dispatches := [RunEntryRecord(env, s.entry, s.opening)], [];
      iterations, attempts, verdict, settled := map p | p in s.phases :: 0, 0, None, None;
      corrections, revalidations, corrected, gates, guards := [], [], [], [], [];
    }

    /** The guard before every round: the ledger's head must be the round just settled. */
    method B1(site: Site) returns (refusal: Option<Reason>)
      modifies this`guards
      ensures
        var flow := Guarded(env, old(Snapshot()), site);
        && Snapshot() == flow.wf
        && (if refusal.None? then flow.Go?
            else flow == Stop(Snapshot(), Stopped, GuardRefused(refusal.value), Some(Columns(refusal.value))))
    {
      hide AdmitHead;
      var admission := AdmitHead(env.judge, ledger, env.run, settled, None);
      refusal := if admission.Err? then Some(admission.error) else None;
      guards := guards + [Guard(site, |ledger|, |gates|, refusal)];
    }

    /** Run one gate and charge it to its phase's budget. */
    method RunRound(p: Phase, purpose: Purpose, budget: int, script: Script) returns (result: RunResult)
      modifies this
      ensures Snapshot() == Ran(env, old(Snapshot()), p, purpose, budget, script)
      ensures result == LastResult(Snapshot())
    {
      hide RunPhase, Charge, Numbered;
      result := Run(p, budget, script);
      settled := Some(Settled(env.run, Str(PhaseName(p)), Int(result.iteration)));
      var used, n := Used(Snapshot(), p), Charge(env.risk, result);
      if purpose.Correction? {
        corrections := corrections + Numbered(p, used, n);
      }
      if purpose.Revalidation? {
        revalidations := revalidations + Numbered(p, used, n);
      }
      iterations := iterations[p := used + n];
      gates := gates + [GateRun(purpose, p, budget, result)];
    }

    method RunPhaseGates(s: Scenario) returns (flow: Flow)
      modifies this
      ensures flow == PhaseGates(env, maxIterations, s, old(Snapshot()), s.phases) && flow.wf == Snapshot()
    {
      hide Guarded, Ran;
      for i := 0 to |s.phases|
        invariant PhaseGates(env, maxIterations, s, old(Snapshot()), s.phases)
                  == PhaseGates(env, maxIterations, s, Snapshot(), s.phases[i..])
      {
        var p := s.phases[i];
        assert s.phases[i..][0] == p && s.phases[i..][1..] == s.phases[i + 1..];
        if p !in s.gates {
          return Stop(Snapshot(), Errored, ScenarioPhaseMissing(p), None);
        }
        var refusal := B1(PhaseGate);
        if refusal.Some? {
          return Stop(Snapshot(), Stopped, GuardRefused(refusal.value), Some(Columns(refusal.value)));
        }
        var result := RunRound(p, Initial, maxIterations, s.gates[p]);
        if !result.status.Completed? {
          return Stop(Snapshot(), result.status, OfRound(result.reason), result.block);
        }
      }
      return Go(Snapshot());
    }

    /** One correction round, and whether its first Worker answered the findings routed to it. */
    method RunCorrectionRound(p: Phase, budget: int, script: Script, ids: set<FindingId>)
      returns (result: RunResult, accepted: map<FindingId, string>, bridged: bool)
      modifies this
      ensures Snapshot() == Ran(env, old(Snapshot()), p, Correction(old(attempts)), budget, script)
      ensures result == LastResult(Snapshot()) && bridged == Bridged(result, ids)
      ensures bridged && result.status.Completed? ==> accepted == Resolutions(result)
    {
      hide Ran;
      result := RunRound(p, Correction(attempts), budget, script);
      if result.workers == [] || (result.status.Stopped? && result.iteration == 1) {
        return result, map[], true;
      }
      if result.workers[0].resolutions.Keys != ids {
        return result, map[], false;
      }
      return result, result.workers[0].resolutions, true;
    }

    method RunCorrections(s: Scenario, routed: seq<(FindingId, Phase)>, responsible: seq<Phase>) returns (flow: Flow)
      modifies this
      ensures flow == Corrections(env, maxIterations, s, old(Snapshot()), routed, responsible) && flow.wf == Snapshot()
    {
      hide Guarded, Ran, Bridged, Resolutions, IdsOf, CorrectedRows;
      for i := 0 to |responsible|
        invariant Corrections(env, maxIterations, s, old(Snapshot()), routed, responsible)
                  == Corrections(env, maxIterations, s, Snapshot(), routed, responsible[i..])
      {
        var p := responsible[i];
        assert responsible[i..][0] == p && responsible[i..][1..] == responsible[i + 1..];
        var used := Used(Snapshot(), p);
        var refusal := B1(CorrectionGate);
        if refusal.Some? {
          return Stop(Snapshot(), Stopped, GuardRefused(refusal.value), Some(Columns(refusal.value)));
        }
        if used >= maxIterations {
          return Stop(Snapshot(), Escalated, PhaseMaxIterationsReached(p), None);
        }
        if (p, attempts) !in s.corrections {
          return Stop(Snapshot(), Errored, ScenarioCorrectionMissing, None);
        }
        var ids := IdsOf(routed, p);
        var result, accepted, bridged := RunCorrectionRound(p, maxIterations - used, s.corrections[(p, attempts)],
                                                            set id | id in ids);
        if !bridged {
          return Stop(Snapshot(), Errored, FinalReviewResolutionTraceIncomplete(p), None);
        }
        if !result.status.Completed? {
          return RoundStop(Snapshot(), p, result);
        }
        corrected := corrected + CorrectedRows(attempts, p, ids, accepted);
      }
      return Go(Snapshot());
    }

    method RunRevalidations(s: Scenario, downstream: seq<Phase>) returns (flow: Flow)
      modifies this
      ensures flow == Revalidations(env, maxIterations, s, old(Snapshot()), downstream) && flow.wf == Snapshot()
    {
      hide Guarded, Ran;
      for i := 0 to |downstream|
        invariant Revalidations(env, maxIterations, s, old(Snapshot()), downstream)
                  == Revalidations(env, maxIterations, s, Snapshot(), downstream[i..])
      {
        var p := downstream[i];
        assert downstream[i..][0] == p && downstream[i..][1..] == downstream[i + 1..];
        var used := Used(Snapshot(), p);
        var refusal := B1(RevalidationGate);
        if refusal.Some? {
          return Stop(Snapshot(), Stopped, GuardRefused(refusal.value), Some(Columns(refusal.value)));
        }
        if used >= maxIterations {
          return Stop(Snapshot(), Escalated, PhaseMaxIterationsReached(p), None);
        }
        if (p, attempts) !in s.revalidations {
          return Stop(Snapshot(), Errored, ScenarioRevalidationMissing, None);
        }
        var result := RunRound(p, Revalidation(attempts), maxIterations - used, s.revalidations[(p, attempts)]);
        if !result.status.Completed? {
          return RoundStop(Snapshot(), p, result);
        }
      }
      return Go(Snapshot());
    }

    /** Route each blocking finding to the requested phase that owns it. */
    static method RouteFindings(findings: seq<Finding>,
                                phases: seq<Phase>) returns (routed: Result<seq<(FindingId, Phase)>, (Status, Cause)>)
      ensures routed == Route(findings, phases)
    {
      var found: seq<(FindingId, Phase)> := [];
      assert findings[0..] == findings;
      assert Route(findings, phases).Ok? ==> found + Route(findings, phases).value == Route(findings, phases).value;
      for i := 0 to |findings|
        invariant
          var rest := Route(findings[i..], phases);
          Route(findings, phases) == if rest.Err? then rest else Ok(found + rest.value)
      {
        assert findings[i..][0] == findings[i] && findings[i..][1..] == findings[i + 1..];
        if findings[i].blocking {
          if findings[i].responsible.None? {
            return Err((Errored, MalformedFinalReviewOutput));
          }
          var owner := LowerToRequestedPhase(findings[i].responsible.value, phases);
          if owner.None? {
            return Err((Escalated, OutOfScopeFinalReviewFinding));
          }
          ghost var rest := Route(findings[i + 1..], phases);
          var row := (findings[i].id, owner.value);
          assert rest.Ok? ==> (found + [row]) + rest.value == found + ([row] + rest.value);
          found := found + [row];
        }
      }
      assert found + [] == found;
      return Ok(found);
    }

    /** Open a Final Review attempt, file what it declares, and only then read its verdict. */
    method RunFinalReview(s: Scenario) returns (review: Review)
      modifies this
      ensures review == Attempt(env, maxIterations, s, old(Snapshot()))
      ensures Snapshot() == if review.Correct? then review.wf else review.flow.wf
    {
      hide Guarded, FiledReview, Judged, Logged, Columns;
      var refusal := B1(FinalGate);
      if refusal.Some? {
        return Decided(Stop(Snapshot(), Stopped, GuardRefused(refusal.value), Some(Columns(refusal.value))));
      }
      attempts := attempts + 1;
      if attempts > |s.finals| {
        return Decided(Stop(Snapshot(), Errored, ScenarioFinalReviewExhausted, None));
      }
      dispatches := dispatches + [Dispatch(FinalReviewerAgent, FinalReview, attempts, |ledger|)];
      var turn := s.finals[attempts - 1];
      if turn.FinalModified? {
        return Decided(Stop(Snapshot(), Errored, FinalReviewModifiedProtectedArtifact, None));
      }
      if turn.FinalExit? {
        return Decided(Stop(Snapshot(), Errored, FinalReviewUnexpectedExit(turn.code), None));
      }
      if turn.FinalMalformed? {
        return Decided(Stop(Snapshot(), Errored, MalformedFinalReviewOutput, None));
      }
      var text := turn.text;
      verdict := Some(text.passes);
      var filed := FileReview(text);
      if filed.Stop? {
        return Decided(filed);
      }
      review := JudgeReview(s, text);
    }

    /** The Final Reviewer's declaration, read on the decision axis. */
    method FileReview(text: FinalText) returns (flow: Flow)
      modifies this`ledger, this`settled
      ensures flow == FiledReview(env, old(Snapshot()), text) && flow.wf == Snapshot()
    {
      hide ParseGateResult, Stamped, KeyOf;
      var gate := ParseGateResult(env.judge, text.body);
      if gate.Err? {
        return Stop(Snapshot(), Stopped, DecisionRefused(gate.error), Some(InputDefect(gate.error)));
      }
      var declared, record := gate.value.declared, gate.value.record;
      if Get(record, Verifies) != Null {
        return Stop(Snapshot(), Stopped, DecisionRefused(InputUnbound), Some(InputDefect(InputUnbound)));
      }
      var _ := AppendDecisionRecord(record, FinalReview, attempts, FinalReviewerAgent, VerdictText(text.passes), Null);
      settled := Some(Settled(env.run, Str(PhaseName(FinalReview)), Int(attempts)));
      if declared.Blocks() {
        var code := Get(record, ReasonCode);
        return Stop(Snapshot(), Stopped, DecisionRefused(Gate.Blocked(declared, code)),
                    Some(DecisionBlock(declared, code)));
      }
      return Go(Snapshot());
    }

    /** Its verdict: done, out of attempts, or findings to route. */
    method JudgeReview(s: Scenario, text: FinalText) returns (review: Review)
      ensures review == Judged(maxIterations, s, Snapshot(), text)
    {
      hide Route, AnyBlocking;
      if text.passes {
        return Decided(Stop(Snapshot(), Completed, Finished, None));
      }
      if attempts >= maxIterations {
        return Decided(Stop(Snapshot(), Escalated, FinalReviewMaxIterationsReached, None));
      }
      if !AnyBlocking(text.findings) {
        return Decided(Stop(Snapshot(), Errored, MalformedFinalReviewOutput, None));
      }
      var routed := RouteFindings(text.findings, s.phases);
      if routed.Err? {
        return Decided(Stop(Snapshot(), routed.error.0, routed.error.1, None));
      }
      return Correct(Snapshot(), routed.value);
    }

    /** The whole workflow: phase gates, then Final Review attempts until one decides. */
    method RunWorkflow(s: Scenario) returns (flow: Flow)
      modifies this
      ensures flow == Workflow.RunWorkflow(env, maxIterations, s) && flow.wf == Snapshot()
    {
      hide PhaseGates, Attempt, Corrections, Revalidations, Responsible, Owners, DownstreamRevalidationSet, Opened;
      OpenRun(s);
      flow := RunPhaseGates(s);
      if flow.Stop? {
        return;
      }
      while true
        invariant flow == Go(Snapshot())
        invariant FinalLoop(env, maxIterations, s, Snapshot()) == Workflow.RunWorkflow(env, maxIterations, s)
        decreases maxIterations - attempts
      {
        var review := RunFinalReview(s);
        if review.Decided? {
          return review.flow;
        }
        var responsible := Responsible(s.phases, Owners(review.routed));
        flow := RunCorrections(s, review.routed, responsible);
        if flow.Stop? {
          return;
        }
        flow := RunRevalidations(s, Downstream(env.risk, responsible, s.phases));
        if flow.Stop? {
          return;
        }
      }
    }
  }
}
