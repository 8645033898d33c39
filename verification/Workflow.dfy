/** A whole workflow run (`E2EHarness.run_workflow` in scripts/e2e_harness.py): the phase gates, then
    Final Review attempts, each followed by the corrections and revalidations it demands. */
module Workflow {
  import opened Vocabulary
  import opened Gate
  import opened PhaseRun
  import opened Phases

  // ---- what the agents answer ----

  datatype Finding = Finding(id: FindingId, blocking: bool, responsible: Option<Phase>)

  datatype FinalText = FinalText(passes: bool, findings: seq<Finding>, body: Body)

  datatype FinalTurn = FinalModified | FinalExit(code: int) | FinalMalformed | FinalOutput(text: FinalText)

  /** The requested phases and every answer the agents will give: per phase for the first gates, per
      phase and Final Review attempt for the rounds that follow. `entry` is what the run-entry
      record says of the requested phases, `opening` the artifact it binds. */
  datatype Scenario = Scenario(
    phases: seq<Phase>,
    entry: Json,
    opening: Json,
    gates: map<Phase, Script>,
    finals: seq<FinalTurn>,
    corrections: map<(Phase, nat), Script>,
    revalidations: map<(Phase, nat), Script>)

  // ---- what a run records ----

  /** Why a round was run, and after which Final Review attempt. */
  datatype Purpose = Initial | Correction(attempt: nat) | Revalidation(attempt: nat)

  datatype GateRun = GateRun(purpose: Purpose, phase: Phase, budget: int, result: RunResult)

  datatype Site = PhaseGate | FinalGate | CorrectionGate | RevalidationGate

  /** One consultation of the ledger: what it had seen, how many rounds had run, what it said. */
  datatype Guard = Guard(site: Site, seen: nat, ran: nat, refusal: Option<Reason>)

  datatype Corrected = Corrected(attempt: nat, finding: FindingId, phase: Phase, resolution: string)

  const UNACCOUNTED: string := "UNACCOUNTED"

  datatype Wf = Wf(
    iterations: map<Phase, int>,
    attempts: nat,
    verdict: Option<bool>,
    settled: Option<Settled>,
    ledger: seq<Record>,
    dispatches: seq<Dispatch>,
    corrections: seq<(Phase, int)>,
    revalidations: seq<(Phase, int)>,
    corrected: seq<Corrected>,
    gates: seq<GateRun>,
    guards: seq<Guard>)

  datatype Cause =
    | Finished
    | OfRound(ended: RunReason)
    | GuardRefused(reason: Reason)
    | DecisionRefused(reason: Reason)
    | ScenarioPhaseMissing(phase: Phase) | ScenarioFinalReviewExhausted
    | ScenarioCorrectionMissing | ScenarioRevalidationMissing
    | FinalReviewModifiedProtectedArtifact | FinalReviewUnexpectedExit(code: int) | MalformedFinalReviewOutput
    | FinalReviewResolutionTraceIncomplete(phase: Phase)
    | FinalReviewMaxIterationsReached | PhaseMaxIterationsReached(phase: Phase)
    | OutOfScopeFinalReviewFinding

  datatype Flow = Stop(wf: Wf, status: Status, cause: Cause, block: Option<Block>) | Go(wf: Wf)

  function Used(wf: Wf, p: Phase): int {
    if p in wf.iterations then wf.iterations[p] else 0
  }

  // ---- the guard before every round ----

  /** What a refusal says of the decision axis: the block it names, else an unusable input. */
  function Columns(reason: Reason): Block {
    if reason.Blocked? then DecisionBlock(reason.state, reason.code) else InputDefect(reason)
  }

  function Refusal(env: Env, wf: Wf): Option<Reason> {
    var admission := AdmitHead(env.judge, wf.ledger, env.run, wf.settled, None);
    if admission.Err? then Some(admission.error) else None
  }

  /** A run that ends because a guard refused ends on that guard's own reason. */
  predicate Logged(flow: Flow) {
    flow.Stop? && flow.cause.GuardRefused? ==>
      flow.wf.guards != [] && flow.wf.guards[|flow.wf.guards| - 1].refusal == Some(flow.cause.reason)
  }

  function Guarded(env: Env, wf: Wf, site: Site): (flow: Flow)
    ensures Logged(flow) && (flow.Stop? ==> flow.status.Stopped?)
  {
    hide Refusal;
    var refusal := Refusal(env, wf);
    var wf' := wf.(guards := wf.guards + [Guard(site, |wf.ledger|, |wf.gates|, refusal)]);
    if refusal.None? then Go(wf') else Stop(wf', Stopped, GuardRefused(refusal.value), Some(Columns(refusal.value)))
  }

  // ---- one round ----

  /** What a round charges to its phase's budget; a decision block charges nothing. */
  function Charge(risk: Risk, result: RunResult): nat {
    if result.block.Some? then 0 else if risk.Low? then |result.workers| else |result.reviews|
  }

  function Numbered(p: Phase, used: int, n: nat): seq<(Phase, int)> {
    seq(n, i requires 0 <= i < n => (p, used + 1 + i))
  }

  function Ran(env: Env, wf: Wf, p: Phase, purpose: Purpose, budget: int, script: Script): (ran: Wf)
    ensures ran.gates != []
  {
    var end := RunPhase(env, p, budget, script, wf.ledger, wf.dispatches);
    var n := Charge(env.risk, end.result);
    var rows := Numbered(p, Used(wf, p), n);
    wf.(iterations := wf.iterations[p := Used(wf, p) + n],
        settled := Some(Settled(env.run, Str(PhaseName(p)), Int(end.result.iteration))),
        ledger := end.ledger,
        dispatches := end.dispatches,
        corrections := if purpose.Correction? then wf.corrections + rows else wf.corrections,
        revalidations := if purpose.Revalidation? then wf.revalidations + rows else wf.revalidations,
        gates := wf.gates + [GateRun(purpose, p, budget, end.result)])
  }

  function LastResult(wf: Wf): RunResult
    requires wf.gates != []
  {
    wf.gates[|wf.gates| - 1].result
  }

  // ---- the phase gates ----

  function PhaseGates(env: Env, max: int, s: Scenario, wf: Wf, todo: seq<Phase>): (flow: Flow)
    ensures Logged(flow) && (flow.Stop? ==> !flow.status.Completed?)
    decreases |todo|
  {
    hide Refusal, RunPhase, Charge, Numbered;
    if todo == [] then Go(wf)
    else if todo[0] !in s.gates then Stop(wf, Errored, ScenarioPhaseMissing(todo[0]), None)
    else
      var guarded := Guarded(env, wf, PhaseGate);
      if guarded.Stop? then guarded
      else
        var ran := Ran(env, guarded.wf, todo[0], Initial, max, s.gates[todo[0]]);
        var result := LastResult(ran);
        if !result.status.Completed? then Stop(ran, result.status, OfRound(result.reason), result.block)
        else PhaseGates(env, max, s, ran, todo[1..])
  }

  // ---- a Final Review attempt ----

  /** Each blocking finding with the requested phase that owns it; the first that has none decides. */
  function Route(findings: seq<Finding>, phases: seq<Phase>): (routed: Result<seq<(FindingId, Phase)>, (Status, Cause)>)
    ensures routed.Err? ==> routed.error in {(Errored, MalformedFinalReviewOutput),
                                             (Escalated, OutOfScopeFinalReviewFinding)}
  {
    if findings == [] then Ok([])
    else if !findings[0].blocking then Route(findings[1..], phases)
    else if findings[0].responsible.None? then Err((Errored, MalformedFinalReviewOutput))
    else
      var owner := LowerToRequestedPhase(findings[0].responsible.value, phases);
      if owner.None? then Err((Escalated, OutOfScopeFinalReviewFinding))
      else
        var rest := Route(findings[1..], phases);
        if rest.Err? then rest else Ok([(findings[0].id, owner.value)] + rest.value)
  }

  predicate AnyBlocking(findings: seq<Finding>) {
    exists i :: 0 <= i < |findings| && findings[i].blocking
  }

  function Owners(routed: seq<(FindingId, Phase)>): set<Phase> {
    set i | 0 <= i < |routed| :: routed[i].1
  }

  /** The owning phases, in the order the run requested them. */
  function Responsible(phases: seq<Phase>, owners: set<Phase>): seq<Phase> {
    if phases == [] then []
    else if phases[0] in owners then [phases[0]] + Responsible(phases[1..], owners - {phases[0]})
    else Responsible(phases[1..], owners)
  }

  function IdsOf(routed: seq<(FindingId, Phase)>, p: Phase): seq<FindingId> {
    if routed == [] then []
    else (if routed[0].1 == p then [routed[0].0] else []) + IdsOf(routed[1..], p)
  }

  datatype Review = Decided(flow: Flow) | Correct(wf: Wf, routed: seq<(FindingId, Phase)>)

  /** The attempt is filed on the decision axis before its verdict is read. */
  function FiledReview(env: Env, wf: Wf, text: FinalText): (flow: Flow)
    ensures Logged(flow) && flow.wf == wf.(ledger := flow.wf.ledger, settled := flow.wf.settled)
    ensures flow.Stop? ==> flow.status.Stopped?
  {
    hide ParseGateResult, Stamped;
    var gate := ParseGateResult(env.judge, text.body);
    if gate.Err? then Stop(wf, Stopped, DecisionRefused(gate.error), Some(InputDefect(gate.error)))
    else if Get(gate.value.record, Verifies) != Null then
      Stop(wf, Stopped, DecisionRefused(InputUnbound), Some(InputDefect(InputUnbound)))
    else
      var slot := Slot(FinalReview, wf.attempts, FinalReviewerAgent, VerdictText(text.passes), Null, |wf.ledger|);
      var code := Get(gate.value.record, ReasonCode);
      var wf' := wf.(ledger := wf.ledger + [Stamped(env, gate.value.record, slot)],
                     settled := Some(Settled(env.run, Str(PhaseName(FinalReview)), Int(wf.attempts))));
      if gate.value.declared.Blocks() then
        Stop(wf', Stopped, DecisionRefused(Gate.Blocked(gate.value.declared, code)),
             Some(DecisionBlock(gate.value.declared, code)))
      else Go(wf')
  }

  /** The verdict: done, out of attempts, or findings to route. */
  function Judged(max: int, s: Scenario, wf: Wf, text: FinalText): (review: Review)
    ensures
      if review.Correct? then review.wf == wf && wf.attempts < max
      else review.flow.Stop? && review.flow.wf == wf && Logged(review.flow)
  {
    if text.passes then Decided(Stop(wf, Completed, Finished, None))
    else if wf.attempts >= max then Decided(Stop(wf, Escalated, FinalReviewMaxIterationsReached, None))
    else if !AnyBlocking(text.findings) then Decided(Stop(wf, Errored, MalformedFinalReviewOutput, None))
    else
      var routed := Route(text.findings, s.phases);
      if routed.Err? then Decided(Stop(wf, routed.error.0, routed.error.1, None)) else Correct(wf, routed.value)
  }

  /** T0: open attempt `wf.attempts` and read what the Final Reviewer answers. */
  function Reviewed(env: Env, max: int, s: Scenario, wf: Wf): (review: Review)
    ensures
      if review.Correct? then review.wf.attempts == wf.attempts < max
      else review.flow.Stop? && Logged(review.flow)
  {
    if wf.attempts > |s.finals| || wf.attempts == 0 then Decided(Stop(wf, Errored, ScenarioFinalReviewExhausted, None))
    else
      var wf1 := wf.(dispatches := wf.dispatches + [Dispatch(FinalReviewerAgent, FinalReview, wf.attempts,
                                                             |wf.ledger|)]);
      match s.finals[wf.attempts - 1]
      case FinalModified => Decided(Stop(wf1, Errored, FinalReviewModifiedProtectedArtifact, None))
      case FinalExit(code) => Decided(Stop(wf1, Errored, FinalReviewUnexpectedExit(code), None))
      case FinalMalformed => Decided(Stop(wf1, Errored, MalformedFinalReviewOutput, None))
      case FinalOutput(text) =>
        var filed := FiledReview(env, wf1.(verdict := Some(text.passes)), text);
        if filed.Stop? then Decided(filed) else Judged(max, s, filed.wf, text)
  }

  // ---- corrections and revalidations ----

  /** Whether the correction's first Worker answered exactly the findings routed to it. A round that
      never reached a Worker, or stopped in its first iteration, is reported as it ended. */
  predicate Bridged(result: RunResult, ids: set<FindingId>) {
    || result.workers == []
    || (result.status.Stopped? && result.iteration == 1)
    || result.workers[0].resolutions.Keys == ids
  }

  function Resolutions(result: RunResult): map<FindingId, string> {
    if result.workers == [] then map[] else result.workers[0].resolutions
  }

  function CorrectedRows(attempt: nat, p: Phase, ids: seq<FindingId>, answers: map<FindingId, string>): seq<Corrected> {
    seq(|ids|, i requires 0 <= i < |ids| =>
        Corrected(attempt, ids[i], p, if ids[i] in answers then answers[ids[i]] else UNACCOUNTED))
  }

  /** How a correction or revalidation that did not complete ends the workflow. */
  function RoundStop(wf: Wf, p: Phase, result: RunResult): Flow {
    if result.status.Escalated? then Stop(wf, Escalated, PhaseMaxIterationsReached(p), None)
    else Stop(wf, result.status, OfRound(result.reason), result.block)
  }

  function Corrections(env: Env, max: int, s: Scenario, wf: Wf, routed: seq<(FindingId, Phase)>,
                       todo: seq<Phase>): (flow: Flow)
    ensures flow.wf.attempts == wf.attempts && Logged(flow) && (flow.Stop? ==> !flow.status.Completed?)
    decreases |todo|
  {
    hide Refusal, RunPhase, Charge, Numbered, Bridged, CorrectedRows, IdsOf;
    if todo == [] then Go(wf)
    else
      var p := todo[0];
      var guarded := Guarded(env, wf, CorrectionGate);
      if guarded.Stop? then guarded
      else if Used(wf, p) >= max then Stop(guarded.wf, Escalated, PhaseMaxIterationsReached(p), None)
      else if (p, wf.attempts) !in s.corrections then Stop(guarded.wf, Errored, ScenarioCorrectionMissing, None)
      else
        var ran := Ran(env, guarded.wf, p, Correction(wf.attempts), max - Used(wf, p), s.corrections[(p, wf.attempts)]);
        var result := LastResult(ran);
        var ids := IdsOf(routed, p);
        if !Bridged(result, set id | id in ids) then Stop(ran, Errored, FinalReviewResolutionTraceIncomplete(p), None)
        else if !result.status.Completed? then RoundStop(ran, p, result)
        else
          var rows := CorrectedRows(wf.attempts, p, ids, Resolutions(result));
          Corrections(env, max, s, ran.(corrected := ran.corrected + rows), routed, todo[1..])
  }

  function Revalidations(env: Env, max: int, s: Scenario, wf: Wf, todo: seq<Phase>): (flow: Flow)
    ensures flow.wf.attempts == wf.attempts && Logged(flow) && (flow.Stop? ==> !flow.status.Completed?)
    decreases |todo|
  {
    hide Refusal, RunPhase, Charge, Numbered, Bridged, CorrectedRows, IdsOf;
    if todo == [] then Go(wf)
    else
      var p := todo[0];
      var guarded := Guarded(env, wf, RevalidationGate);
      if guarded.Stop? then guarded
      else if Used(wf, p) >= max then Stop(guarded.wf, Escalated, PhaseMaxIterationsReached(p), None)
      else if (p, wf.attempts) !in s.revalidations then Stop(guarded.wf, Errored, ScenarioRevalidationMissing, None)
      else
        var ran := Ran(env, guarded.wf, p, Revalidation(wf.attempts), max - Used(wf, p),
                       s.revalidations[(p, wf.attempts)]);
        var result := LastResult(ran);
        if !result.status.Completed? then RoundStop(ran, p, result)
        else Revalidations(env, max, s, ran, todo[1..])
  }

  /** Which phases a correction of `responsible` sends back to their gate: none below HIGH. */
  function Downstream(risk: Risk, responsible: seq<Phase>, phases: seq<Phase>): seq<Phase> {
    if risk.High? then DownstreamRevalidationSet(responsible, phases) else []
  }

  /** Every correction a failed attempt demands, then every revalidation the corrections demand. */
  function Repaired(env: Env, max: int, s: Scenario, wf: Wf, routed: seq<(FindingId, Phase)>): (flow: Flow)
    ensures flow.wf.attempts == wf.attempts && Logged(flow)
  {
    var responsible := Responsible(s.phases, Owners(routed));
    var corrected := Corrections(env, max, s, wf, routed, responsible);
    if corrected.Stop? then corrected
    else Revalidations(env, max, s, corrected.wf, Downstream(env.risk, responsible, s.phases))
  }

  // ---- the whole run ----

  function Attempt(env: Env, max: int, s: Scenario, wf: Wf): (review: Review)
    ensures
      if review.Correct? then review.wf.attempts == wf.attempts + 1 < max
      else review.flow.Stop? && Logged(review.flow)
  {
    var guarded := Guarded(env, wf, FinalGate);
    if guarded.Stop? then Decided(guarded)
    else Reviewed(env, max, s, guarded.wf.(attempts := wf.attempts + 1))
  }

  function FinalLoop(env: Env, max: int, s: Scenario, wf: Wf): (flow: Flow)
    ensures flow.Stop? && Logged(flow)
    decreases max - wf.attempts
  {
    match Attempt(env, max, s, wf)
    case Decided(flow) => flow
    case Correct(wf1, routed) =>
      var repaired := Repaired(env, max, s, wf1, routed);
      if repaired.Stop? then repaired else FinalLoop(env, max, s, repaired.wf)
  }

  /** A freshly opened run: one run-entry record, nothing dispatched, nothing charged. */
  function Opened(env: Env, s: Scenario): Wf {
    Wf(map p | p in s.phases :: 0, 0, None, None, [RunEntryRecord(env, s.entry, s.opening)], [], [], [], [], [], [])
  }

  function RunWorkflow(env: Env, max: int, s: Scenario): (flow: Flow)
    ensures flow.Stop? && Logged(flow)
  {
    var gated := PhaseGates(env, max, s, Opened(env, s), s.phases);
    if gated.Stop? then gated else FinalLoop(env, max, s, gated.wf)
  }
}
