/** Which answers each round of a run was given: a phase's gate its own, a correction and a revalidation
    those for their phase after their attempt. */
module WorkflowScripts {
  import opened Vocabulary
  import opened Gate
  import opened PhaseRun
  import opened PhaseRunCompletion
  import opened PhaseRunTraces
  import opened Phases
  import opened Workflow

  /** The answers a round is due. */
  function DueTo(s: Scenario, purpose: Purpose, p: Phase): Option<Script> {
    match purpose
    case Initial => if p in s.gates then Some(s.gates[p]) else None
    case Correction(attempt) => if (p, attempt) in s.corrections then Some(s.corrections[(p, attempt)]) else None
    case Revalidation(attempt) => if (p, attempt) in s.revalidations then Some(s.revalidations[(p, attempt)]) else None
  }

  ghost predicate YieldedBy(env: Env, g: GateRun, script: Script) {
    exists ledger, dispatches :: g.result == RunPhase(env, g.phase, g.budget, script, ledger, dispatches).result
  }

  /** The round ran its phase on the answers it is due, a gate with the whole budget. */
  ghost predicate RanItsOwn(env: Env, max: int, s: Scenario, g: GateRun) {
    && DueTo(s, g.purpose, g.phase).Some? && YieldedBy(env, g, DueTo(s, g.purpose, g.phase).value)
    && (g.purpose == Initial ==> g.budget == max)
  }

  ghost predicate AllRanTheirOwn(env: Env, max: int, s: Scenario, wf: Wf) {
    forall g :: g in wf.gates ==> RanItsOwn(env, max, s, g)
  }

  lemma RanKeeps(env: Env, max: int, s: Scenario, wf: Wf, p: Phase, purpose: Purpose, budget: int, script: Script)
    requires AllRanTheirOwn(env, max, s, wf) && DueTo(s, purpose, p) == Some(script)
    requires purpose == Initial ==> budget == max
    ensures AllRanTheirOwn(env, max, s, Ran(env, wf, p, purpose, budget, script))
  {
    hide RunPhase, Charge, Numbered;
    var ran := Ran(env, wf, p, purpose, budget, script);
    var last := ran.gates[|ran.gates| - 1];
    assert last.result == RunPhase(env, p, budget, script, wf.ledger, wf.dispatches).result;
    assert YieldedBy(env, last, script);
  }

  lemma {:induction false} GatesRunTheirOwn(env: Env, max: int, s: Scenario, wf: Wf, todo: seq<Phase>)
    requires AllRanTheirOwn(env, max, s, wf)
    ensures AllRanTheirOwn(env, max, s, PhaseGates(env, max, s, wf, todo).wf)
    decreases |todo|
  {
    hide Refusal, Ran, RanItsOwn;
    if todo != [] && todo[0] in s.gates {
      var guarded := Guarded(env, wf, PhaseGate);
      if guarded.Go? {
        RanKeeps(env, max, s, guarded.wf, todo[0], Initial, max, s.gates[todo[0]]);
        var ran := Ran(env, guarded.wf, todo[0], Initial, max, s.gates[todo[0]]);
        if LastResult(ran).status.Completed? {
          GatesRunTheirOwn(env, max, s, ran, todo[1..]);
        }
      }
    }
  }

  lemma {:induction false} CorrectionsRunTheirOwn(env: Env, max: int, s: Scenario, wf: Wf,
                                                  routed: seq<(FindingId, Phase)>, todo: seq<Phase>)
    requires AllRanTheirOwn(env, max, s, wf)
    ensures AllRanTheirOwn(env, max, s, Corrections(env, max, s, wf, routed, todo).wf)
    decreases |todo|
  {
    hide Refusal, Ran, RanItsOwn, Bridged, CorrectedRows, IdsOf;
    if todo != [] {
      var p := todo[0];
      var guarded := Guarded(env, wf, CorrectionGate);
      if guarded.Go? && Used(wf, p) < max && (p, wf.attempts) in s.corrections {
        var script := s.corrections[(p, wf.attempts)];
        RanKeeps(env, max, s, guarded.wf, p, Correction(wf.attempts), max - Used(wf, p), script);
        var ran := Ran(env, guarded.wf, p, Correction(wf.attempts), max - Used(wf, p), script);
        var rows := CorrectedRows(wf.attempts, p, IdsOf(routed, p), Resolutions(LastResult(ran)));
        RanAttempts(env, guarded.wf, p, Correction(wf.attempts), max - Used(wf, p), script);
        CorrectionsRunTheirOwn(env, max, s, ran.(corrected := ran.corrected + rows), routed, todo[1..]);
      }
    }
  }

  lemma RanAttempts(env: Env, wf: Wf, p: Phase, purpose: Purpose, budget: int, script: Script)
    ensures Ran(env, wf, p, purpose, budget, script).attempts == wf.attempts
  {
    hide RunPhase, Charge, Numbered;
  }

  lemma {:induction false} RevalidationsRunTheirOwn(env: Env, max: int, s: Scenario, wf: Wf, todo: seq<Phase>)
    requires AllRanTheirOwn(env, max, s, wf)
    ensures AllRanTheirOwn(env, max, s, Revalidations(env, max, s, wf, todo).wf)
    decreases |todo|
  {
    hide Refusal, Ran, RanItsOwn;
    if todo != [] {
      var p := todo[0];
      var guarded := Guarded(env, wf, RevalidationGate);
      if guarded.Go? && Used(wf, p) < max && (p, wf.attempts) in s.revalidations {
        var script := s.revalidations[(p, wf.attempts)];
        RanKeeps(env, max, s, guarded.wf, p, Revalidation(wf.attempts), max - Used(wf, p), script);
        var ran := Ran(env, guarded.wf, p, Revalidation(wf.attempts), max - Used(wf, p), script);
        RevalidationsRunTheirOwn(env, max, s, ran, todo[1..]);
      }
    }
  }

  lemma AttemptRunsNothing(env: Env, max: int, s: Scenario, wf: Wf)
    ensures
      var review := Attempt(env, max, s, wf);
      (if review.Correct? then review.wf else review.flow.wf).gates == wf.gates
  {
    hide Refusal, FiledReview, Route, AnyBlocking;
  }

  lemma {:induction false} FinalLoopRunsTheirOwn(env: Env, max: int, s: Scenario, wf: Wf)
    requires AllRanTheirOwn(env, max, s, wf)
    ensures AllRanTheirOwn(env, max, s, FinalLoop(env, max, s, wf).wf)
    decreases max - wf.attempts
  {
    hide Attempt, Corrections, Revalidations, Responsible, Owners, Downstream, RanItsOwn;
    AttemptRunsNothing(env, max, s, wf);
    var review := Attempt(env, max, s, wf);
    if review.Correct? {
      var responsible := Responsible(s.phases, Owners(review.routed));
      CorrectionsRunTheirOwn(env, max, s, review.wf, review.routed, responsible);
      var corrected := Corrections(env, max, s, review.wf, review.routed, responsible);
      if corrected.Go? {
        var down := Downstream(env.risk, responsible, s.phases);
        RevalidationsRunTheirOwn(env, max, s, corrected.wf, down);
        var flow := Revalidations(env, max, s, corrected.wf, down);
        if flow.Go? {
          FinalLoopRunsTheirOwn(env, max, s, flow.wf);
        }
      }
    }
  }

  /** Every round of every run was run on the answers it is due, so what each yields is what
      `PhaseRunOutcomes` says of those answers. */
  lemma EveryRoundRanItsOwn(env: Env, max: int, s: Scenario)
    ensures AllRanTheirOwn(env, max, s, RunWorkflow(env, max, s).wf)
  {
    hide PhaseGates, FinalLoop, RunEntryRecord, RanItsOwn;
    GatesRunTheirOwn(env, max, s, Opened(env, s), s.phases);
    var gated := PhaseGates(env, max, s, Opened(env, s), s.phases);
    if gated.Go? {
      FinalLoopRunsTheirOwn(env, max, s, gated.wf);
    }
  }

  /** So above LOW a completed round of any run, be it a gate, a correction or a revalidation, had its own
      Workers work and its own last review pass, the earlier ones failing. */
  lemma CompletedRoundsWereEarned(env: Env, max: int, s: Scenario, g: GateRun)
    requires env.risk != Low && g in RunWorkflow(env, max, s).wf.gates && g.result.status == Completed
    ensures DueTo(s, g.purpose, g.phase).Some?
    ensures 1 <= g.result.iteration <= g.budget
    ensures CompletesAt(env, DueTo(s, g.purpose, g.phase).value, g.result.iteration)
  {
    hide RunWorkflow, RunPhase, CompletesAt;
    EveryRoundRanItsOwn(env, max, s);
    var script := DueTo(s, g.purpose, g.phase).value;
    assert YieldedBy(env, g, script);
    var ledger, dispatches :| g.result == RunPhase(env, g.phase, g.budget, script, ledger, dispatches).result;
    PhaseCompletesIff(env, g.phase, g.budget, script, ledger, dispatches);
    PhaseCompletesWithin(env, g.phase, g.budget, script, ledger, dispatches);
  }

  lemma {:induction false} CompletesWithin(env: Env, phase: Phase, budget: int, script: Script, st: Loop)
    requires st.iteration >= 1
    ensures
      var r := RunFrom(env, phase, budget, script, st).result;
      r.status.Completed? ==> st.iteration <= r.iteration <= budget
    decreases budget - st.iteration
  {
    hide WorkerHalf, ReviewerHalf;
    if st.iteration <= budget {
      WorkerStaysInIteration(env, phase, script, st);
      var half := WorkerHalf(env, phase, script, st);
      if half.ToReviewer? {
        ReviewerStaysInIteration(env, phase, script, half);
        if ReviewerHalf(env, phase, script, half).Again? {
          CompletesWithin(env, phase, budget, script, ReviewerHalf(env, phase, script, half).st);
        }
      }
    }
  }

  lemma PhaseCompletesWithin(env: Env, phase: Phase, budget: int, script: Script, ledger: seq<Record>,
                             dispatches: seq<Dispatch>)
    ensures
      var r := RunPhase(env, phase, budget, script, ledger, dispatches).result;
      r.status.Completed? ==> 1 <= r.iteration <= budget
  {
    hide RunFrom;
    CompletesWithin(env, phase, budget, script, Start(ledger, dispatches));
  }
}
