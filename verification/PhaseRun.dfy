/** One phase's Worker -> Reviewer loop (`E2EHarness.run` in scripts/e2e_harness.py), as a function
    of what the agents answer. The ledger and the dispatches it extends are passed through it. */
module PhaseRun {
  import opened Vocabulary
  import opened Gate

  datatype Risk = Low | Medium | High

  type FindingId = string

  // ---- what the agents answer ----

  datatype WorkerStatus = WorkComplete | WorkBlocked

  datatype UnitTest = NotReported | TestsPass | TestsBlocked

  datatype WorkerText = WorkerText(status: WorkerStatus, resolutions: map<FindingId, string>, unitTest: UnitTest,
                                   body: Body)

  datatype WorkerTurn = WorkerExit(code: int) | WorkerMalformed | WorkerOutput(text: WorkerText)

  /** A Reviewer's verdict and the ids under its blocking findings, as written. */
  datatype ReviewerText = ReviewerText(passes: bool, findings: seq<FindingId>, body: Body)

  datatype ReviewerTurn =
    | ReviewerModified | ReviewerExit(code: int) | ReviewerMalformed | ReviewerOutput(text: ReviewerText)

  /** The answers of one phase round, per local iteration. */
  datatype Script = Script(workers: seq<WorkerTurn>, reviewers: seq<ReviewerTurn>)

  // ---- what a run yields ----

  /** `Stopped` is the contract's BLOCKED. */
  datatype Status = Completed | Stopped | Escalated | Errored

  datatype RunReason =
    | NoReason
    | WorkerExhausted | WorkerUnexpectedExit(code: int) | MalformedWorkerOutput
    | ReviewerExhausted | ReviewerUnexpectedExit(code: int) | MalformedReviewerOutput
    | ReviewerModifiedProtectedArtifact
    | WorkerBlocked | UnitTestBlocked | UnitTestEvidenceMissing
    | ResolutionTraceIncomplete
    | MaxIterationsReached
    | Refused(reason: Reason)

  /** The decision axis's answer: an input that could not be used, or a decision that blocks. */
  datatype Block = InputDefect(reason: Reason) | DecisionBlock(state: State, code: Json)

  datatype Trace = Trace(introduced: int, reviews: seq<int>, resolutions: seq<(int, string)>)

  type Traces = map<FindingId, Trace>

  datatype RunResult = RunResult(
    iteration: int,
    workers: seq<WorkerText>,
    reviews: seq<bool>,
    traces: Traces,
    status: Status,
    reason: RunReason,
    block: Option<Block>)

  datatype Agent = WorkerAgent | ReviewerAgent | FinalReviewerAgent

  /** One agent invocation; `after` is how many ledger records had been written before it. */
  datatype Dispatch = Dispatch(agent: Agent, phase: Phase, iteration: int, after: nat)

  /** What stays fixed during a run: the judge, the risk level, the run's identity, the time at which
      each ledger record is published and the artifact an agent writes in a phase. */
  datatype Env = Env(judge: Judge, risk: Risk, run: Json, published: nat -> Json, artifact: (Agent, Phase) -> Json)

  // ---- ledger records ----

  /** Where a record is filed: everything the harness stamps over the agent's own fields. */
  datatype Slot = Slot(phase: Phase, iteration: int, agent: Agent, verdict: Json, verifies: Json, sequence: nat)

  function Stamps(env: Env, s: Slot): Record {
    var reviewer := !s.agent.WorkerAgent?;
    map[LedgerSchemaVersion := Int(1),
        Run := env.run,
        Field.Phase := Str(PhaseName(s.phase)),
        Iteration := Int(s.iteration),
        Role := Str(if reviewer then Reviewer else Worker),
        Boundary := Str(if reviewer then B3 else B2),
        Source := Str(if reviewer then Reviewer else Worker),
        Verdict := s.verdict,
        Verifies := s.verifies,
        PriorOpenDecisionItems := List([]),
        RecordedAt := env.published(s.sequence),
        SourceBinding := env.artifact(s.agent, s.phase),
        Sequence := Int(s.sequence)]
  }

  function Defaults(s: Slot): Record {
    map[ResponsiblePhase := Str(PhaseName(s.phase)), Evidence := Obj(map[]), Assumption := Null, OpenItem := Null]
  }

  /** The published record: defaults under the agent's fields, the harness's stamps over them. */
  function Stamped(env: Env, record: Record, s: Slot): Record {
    Defaults(s) + record + Stamps(env, s)
  }

  /** What the run-entry record declares: nothing is open when the run begins. */
  function EntryClaims(phase: Json): Record {
    map[Field.State := Str(StateName(Clear)), ReasonCode := Null, OpenDecisionItem := Bool(false),
        Evidence := Obj(map[]), Assumption := Null, OpenItem := Null, ResponsiblePhase := phase,
        Grounds := Str(Raw("nothing open")), Scope := Str(Raw("run entry"))]
  }

  function EntryStamps(env: Env, phase: Json, binding: Json): Record {
    map[LedgerSchemaVersion := Int(1), Run := env.run, Field.Phase := phase, Iteration := Int(0),
        Role := Str(Coordinator), Boundary := Str(B1), Source := Str(RunEntry),
        Verdict := Str(Raw("")), Verifies := Null, PriorOpenDecisionItems := List([]),
        RecordedAt := env.published(0), SourceBinding := binding, Sequence := Int(0)]
  }

  function RunEntryRecord(env: Env, phase: Json, binding: Json): Record {
    EntryClaims(phase) + EntryStamps(env, phase, binding)
  }

  // ---- traces ----

  function AddReview(traces: Traces, f: FindingId, iteration: int): Traces {
    var t := if f in traces then traces[f] else Trace(iteration, [], []);
    traces[f := t.(reviews := t.reviews + [iteration])]
  }

  function AddReviews(traces: Traces, findings: seq<FindingId>, iteration: int): Traces {
    if findings == [] then traces
    else AddReview(AddReviews(traces, findings[..|findings| - 1], iteration), findings[|findings| - 1], iteration)
  }

  function AddResolutions(traces: Traces, resolutions: map<FindingId, string>, iteration: int): Traces {
    map f | f in traces ::
      if f in resolutions
      then traces[f].(resolutions := traces[f].resolutions + [(iteration, resolutions[f])])
      else traces[f]
  }

  // ---- one iteration ----

  /** The loop's variables between iterations. */
  datatype Loop = Loop(
    iteration: nat,
    previous: set<FindingId>,
    traces: Traces,
    workers: seq<WorkerText>,
    reviews: seq<bool>,
    ledger: seq<Record>,
    dispatches: seq<Dispatch>)

  datatype End = End(result: RunResult, ledger: seq<Record>, dispatches: seq<Dispatch>)

  datatype Turn = Over(end: End) | Again(st: Loop)

  /** The Worker's half ended the round, or left it to the Reviewer. */
  datatype Half = HalfOver(end: End) | ToReviewer(st: Loop, verifying: bool, state: State, record: Record, key: Json)

  function Ended(st: Loop, status: Status, reason: RunReason): End {
    End(RunResult(st.iteration, st.workers, st.reviews, st.traces, status, reason, None), st.ledger, st.dispatches)
  }

  function DecisionBlocked(st: Loop, reason: Reason, block: Block): End {
    End(RunResult(st.iteration, st.workers, st.reviews, st.traces, Stopped, Refused(reason), Some(block)),
        st.ledger, st.dispatches)
  }

  function Dispatched(st: Loop, agent: Agent, phase: Phase): Loop {
    st.(dispatches := st.dispatches + [Dispatch(agent, phase, st.iteration, |st.ledger|)])
  }

  function Recorded(env: Env, st: Loop, record: Record, phase: Phase, agent: Agent, verdict: Json,
                    verifies: Json): Loop {
    st.(ledger := st.ledger + [Stamped(env, record, Slot(phase, st.iteration, agent, verdict, verifies, |st.ledger|))])
  }

  function LastKey(st: Loop): Json {
    if st.ledger == [] then Null else KeyOf(st.ledger[|st.ledger| - 1])
  }

  predicate UnitTestGated(phase: Phase) {
    phase in {Implementation, Bugfix, Refactoring}
  }

  /** A Worker's declaration: refused, or a record that verifies nothing. */
  function WorkerGate(env: Env, body: Body): Result<GateResult, Reason> {
    var gate := ParseGateResult(env.judge, body);
    if gate.Ok? && Get(gate.value.record, Verifies) != Null then Err(InputUnbound) else gate
  }

  /** The quality axis after the Worker's declaration was filed. */
  function AfterDeclaration(env: Env, phase: Phase, st: Loop, text: WorkerText, gate: GateResult): (half: Half)
    ensures half.ToReviewer? ==> half.st.iteration == st.iteration
  {
    var verifying := gate.declared.Blocks();
    if text.status.WorkBlocked? && !verifying then HalfOver(Ended(st, Stopped, WorkerBlocked))
    else if UnitTestGated(phase) && env.risk.Low? && !text.unitTest.TestsPass? then
      HalfOver(Ended(st, Stopped, if text.unitTest.TestsBlocked? then UnitTestBlocked else UnitTestEvidenceMissing))
    else if st.previous != {} && text.resolutions.Keys != st.previous then
      HalfOver(Ended(st, Errored, ResolutionTraceIncomplete))
    else
      var st' := if st.previous != {} then st.(traces := AddResolutions(st.traces, text.resolutions, st.iteration))
                 else st;
      if env.risk.Low? then HalfOver(Ended(st', Completed, NoReason))
      else ToReviewer(st', verifying, gate.declared, gate.record, LastKey(st'))
  }

  function WorkerHalf(env: Env, phase: Phase, script: Script, st: Loop): (half: Half)
    ensures half.ToReviewer? ==> half.st.iteration == st.iteration
  {
    if st.iteration == 0 || st.iteration > |script.workers| then HalfOver(Ended(st, Errored, WorkerExhausted))
    else
      var turn := script.workers[st.iteration - 1];
      var st1 := Dispatched(st, WorkerAgent, phase);
      match turn
      case WorkerExit(code) => HalfOver(Ended(st1, Errored, WorkerUnexpectedExit(code)))
      case WorkerMalformed => HalfOver(Ended(st1, Errored, MalformedWorkerOutput))
      case WorkerOutput(text) =>
        var st2 := st1.(workers := st1.workers + [text]);
        var gate := WorkerGate(env, text.body);
        if gate.Err? then HalfOver(DecisionBlocked(st2, gate.error, InputDefect(gate.error)))
        else
          var st3 := Recorded(env, st2, gate.value.record, phase, WorkerAgent, Str(Raw("")), Null);
          var code := Get(gate.value.record, ReasonCode);
          if gate.value.declared.Blocks() && env.risk.Low? then
            HalfOver(DecisionBlocked(st3, Gate.Blocked(gate.value.declared, code),
                                     DecisionBlock(gate.value.declared, code)))
          else AfterDeclaration(env, phase, st3, text, gate.value)
  }

  /** The review verdict, or None where the report contradicts itself. */
  function ReviewVerdict(text: ReviewerText): Option<bool> {
    if exists i, j :: 0 <= i < j < |text.findings| && text.findings[i] == text.findings[j] then None
    else if text.passes != (text.findings == []) then None
    else Some(text.passes)
  }

  function VerdictText(passes: bool): Json {
    Str(Raw(if passes then "PASS" else "FAIL"))
  }

  /** B3 in verification mode: always terminal. */
  function VerifiedTurn(env: Env, phase: Phase, st: Loop, passes: bool, w: Half, r: GateResult): End
    requires w.ToReviewer?
  {
    if !VerificationBinds(r.record, w.key, Settled(env.run, Str(PhaseName(phase)), Int(st.iteration))) then
      DecisionBlocked(st, InputUnbound, InputDefect(InputUnbound))
    else
      var st' := Recorded(env, st, r.record, phase, ReviewerAgent, VerdictText(passes), r.record[Verifies]);
      var outcome := EvaluateVerification(env.judge, w.state, w.record, r.declared, r.record);
      DecisionBlocked(st', outcome.reason, DecisionBlock(outcome.state, outcome.code))
  }

  /** B3 in normal mode: file the record, then block, pass or go round again. */
  function ReviewedTurn(env: Env, phase: Phase, st: Loop, text: ReviewerText, r: GateResult): (turn: Turn)
    ensures turn.Again? ==> turn.st.iteration == st.iteration + 1
  {
    if Get(r.record, Verifies) != Null then Over(DecisionBlocked(st, InputUnbound, InputDefect(InputUnbound)))
    else
      var st' := Recorded(env, st, r.record, phase, ReviewerAgent, VerdictText(text.passes), Null);
      var code := Get(r.record, ReasonCode);
      if r.declared.Blocks() then
        Over(DecisionBlocked(st'.(traces := AddReviews(st'.traces, text.findings, st'.iteration)),
                             Gate.Blocked(r.declared, code), DecisionBlock(r.declared, code)))
      else if text.passes then Over(Ended(st', Completed, NoReason))
      else
        Again(st'.(traces := AddReviews(st'.traces, text.findings, st'.iteration),
                   previous := (set f | f in text.findings),
                   iteration := st'.iteration + 1))
  }

  function ReviewerHalf(env: Env, phase: Phase, script: Script, w: Half): (turn: Turn)
    requires w.ToReviewer?
    ensures turn.Again? ==> turn.st.iteration == w.st.iteration + 1
  {
    if w.st.iteration == 0 || w.st.iteration > |script.reviewers| then Over(Ended(w.st, Errored, ReviewerExhausted))
    else
      var turn := script.reviewers[w.st.iteration - 1];
      var st1 := Dispatched(w.st, ReviewerAgent, phase);
      match turn
      case ReviewerModified => Over(Ended(st1, Errored, ReviewerModifiedProtectedArtifact))
      case ReviewerExit(code) => Over(Ended(st1, Errored, ReviewerUnexpectedExit(code)))
      case ReviewerMalformed => Over(Ended(st1, Errored, MalformedReviewerOutput))
      case ReviewerOutput(text) =>
        if ReviewVerdict(text).None? then Over(Ended(st1, Errored, MalformedReviewerOutput))
        else
          var st2 := st1.(reviews := st1.reviews + [text.passes]);
          var gate := ParseGateResult(env.judge, text.body);
          if gate.Err? then Over(DecisionBlocked(st2, gate.error, InputDefect(gate.error)))
          else if w.verifying then Over(VerifiedTurn(env, phase, st2, text.passes, w, gate.value))
          else ReviewedTurn(env, phase, st2, text, gate.value)
  }

  function Round(env: Env, phase: Phase, script: Script, st: Loop): (turn: Turn)
    ensures turn.Again? ==> turn.st.iteration == st.iteration + 1
  {
    var half := WorkerHalf(env, phase, script, st);
    if half.HalfOver? then Over(half.end) else ReviewerHalf(env, phase, script, half)
  }

  // ---- the loop ----

  function RunFrom(env: Env, phase: Phase, budget: int, script: Script, st: Loop): End
    decreases budget - st.iteration
  {
    if st.iteration > budget then
      End(RunResult(budget, st.workers, st.reviews, st.traces, Escalated, MaxIterationsReached, None), st.ledger,
          st.dispatches)
    else
      match Round(env, phase, script, st)
      case Over(end) => end
      case Again(st') =>
        RunFrom(env, phase, budget, script, st')
  }

  function Start(ledger: seq<Record>, dispatches: seq<Dispatch>): Loop {
    Loop(1, {}, map[], [], [], ledger, dispatches)
  }

  function RunPhase(env: Env, phase: Phase, budget: int, script: Script, ledger: seq<Record>,
                    dispatches: seq<Dispatch>): End {
    RunFrom(env, phase, budget, script, Start(ledger, dispatches))
  }
}
