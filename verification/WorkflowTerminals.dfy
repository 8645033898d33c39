/** A whole run that ends on a decision leaves a ledger that names it, whichever agent raised the
    decision: a Worker, a phase's Reviewer, or the Final Reviewer. */
module WorkflowTerminals {
  import opened Vocabulary
  import opened Gate
  import opened GateLedger
  import opened PhaseRun
  import opened PhaseRunFacts
  import opened Stamping
  import opened RunLedger
  import opened RunTerminals
  import opened Workflow
  import opened WorkflowFacts

  /** The decision-axis reason a workflow reports, if it ends on one. */
  function ReportedReason(cause: Cause): Option<Reason> {
    match cause
    case OfRound(Refused(reason)) => Some(reason)
    case DecisionRefused(reason) => Some(reason)
    case GuardRefused(reason) => Some(reason)
    case _ => None
  }

  /** The run ended on a decision, and its ledger names the reason it reported. */
  ghost predicate FlowNamed(env: Env, flow: Flow) {
    flow.Stop? && flow.block.Some? && flow.block.value.DecisionBlock? && AllCarry(flow.wf.ledger) ==>
      ReportedReason(flow.cause).Some? && NamedBy(env, flow.wf.ledger, ReportedReason(flow.cause).value)
  }

  /** What every theorem here asks of the judge and of the run-entry record. */
  ghost predicate Readable(env: Env, s: Scenario) {
    Steady(env) && Sound(env.judge) && GoodEntry(env, Entry(env, s))
  }

  /** A guard never stops a run on a decision: under such a judge it refuses missing codes only. */
  lemma GuardNamed(env: Env, s: Scenario, wf: Wf, site: Site)
    requires Readable(env, s) && Undisturbed(env, s, wf)
    ensures FlowNamed(env, Guarded(env, wf, site)) && Undisturbed(env, s, Guarded(env, wf, site).wf)
  {
    hide AdmitHead, Quiet, HeadSettled, AllCarry, Steady, Sound, GoodEntry, RunEntryRecord, NamedBy;
    GuardIffAllCarry(env, Entry(env, s), wf.ledger, wf.settled);
  }

  lemma RanNamed(env: Env, s: Scenario, wf: Wf, p: Phase, purpose: Purpose, budget: int, script: Script)
    requires Readable(env, s) && Undisturbed(env, s, wf)
    ensures
      var ran := Ran(env, wf, p, purpose, budget, script);
      var result := LastResult(ran);
      && (result.status.Completed? ==> Undisturbed(env, s, ran))
      && (result.block.Some? && result.block.value.DecisionBlock? && AllCarry(ran.ledger) ==>
            result.reason.Refused? && NamedBy(env, ran.ledger, result.reason.reason))
  {
    hide Quiet, HeadSettled, AllCarry, Steady, Sound, GoodEntry, RunEntryRecord, NamedBy, RunPhase, Charge, Numbered,
         Safe;
    RanIsSafe(env, s, wf, p, purpose, budget, script);
    RunNamesItsTerminal(env, Entry(env, s), p, budget, script, wf.ledger, wf.dispatches);
  }

  // ---- the Final Reviewer's record ----

  lemma FinalRecordNames(env: Env, s: Scenario, wf: Wf, g: GateResult, passes: bool)
    requires Readable(env, s) && Quiet(env, Entry(env, s), wf.ledger)
    requires env.judge.accepts(g.record) && Get(g.record, Field.State) == Str(StateName(g.declared))
    requires g.declared.Blocks()
    ensures
      var ledger := wf.ledger + [Stamped(env, g.record, FinalSlot(wf, passes))];
      AllCarry(ledger) ==> NamedBy(env, ledger, Blocked(g.declared, Get(g.record, ReasonCode)))
  {
    hide Stamped, Steady, Sound, GoodEntry, RunEntryRecord, NamedBy, QuietLedger, FiledRecord, Clean;
    var slot := FinalSlot(wf, passes);
    var r := Stamped(env, g.record, slot);
    var ledger := wf.ledger + [r];
    if AllCarry(ledger) {
      assert ledger[|wf.ledger|] == r;
      IsFiled(env, r, slot, g.record);
      FiledRecordIs(env, r, FinalReview, wf.attempts, FinalReviewerAgent, g.record, |wf.ledger|);
      CarryPrefix(wf.ledger, ledger);
      QuietLedgers(env, Entry(env, s), wf.ledger);
      BlockNames(env, wf.ledger, r);
    }
  }

  lemma IsFiled(env: Env, r: Record, slot: Slot, base: Record)
    requires r == Stamped(env, base, slot) && Bindable(slot) && env.judge.accepts(base)
    ensures FiledRecord(env, r, slot.phase, slot.iteration, slot.agent, base, slot.sequence)
  {
    hide Stamped;
  }

  /** A Final Reviewer that declares a block ends the run on it; one that does not leaves the ledger
      undisturbed. */
  lemma FiledNamed(env: Env, s: Scenario, wf: Wf, text: FinalText)
    requires Readable(env, s) && Undisturbed(env, s, wf)
    ensures FlowNamed(env, FiledReview(env, wf, text))
    ensures FiledReview(env, wf, text).Go? ==> Undisturbed(env, s, FiledReview(env, wf, text).wf)
  {
    hide ParseGateResult, Stamped, Quiet, HeadSettled, AllCarry, Steady, Sound, GoodEntry, RunEntryRecord, NamedBy;
    var gate := ParseGateResult(env.judge, text.body);
    if gate.Ok? {
      AcceptedDeclares(env, text.body);
      FinalRecordSettles(env, s, wf, gate.value, text.passes);
      if gate.value.declared.Blocks() {
        FinalRecordNames(env, s, wf, gate.value, text.passes);
      }
    }
  }

  lemma AttemptNamed(env: Env, max: int, s: Scenario, wf: Wf)
    requires Readable(env, s) && Undisturbed(env, s, wf)
    ensures
      var review := Attempt(env, max, s, wf);
      if review.Correct? then Undisturbed(env, s, review.wf) else FlowNamed(env, review.flow)
  {
    hide Refusal, FiledReview, Route, AnyBlocking, Quiet, HeadSettled, AllCarry, Readable, RunEntryRecord, NamedBy;
    GuardNamed(env, s, wf, FinalGate);
    var guarded := Guarded(env, wf, FinalGate);
    if guarded.Go? && wf.attempts + 1 <= |s.finals| && s.finals[wf.attempts].FinalOutput? {
      var text := s.finals[wf.attempts].text;
      var current := guarded.wf.(attempts := wf.attempts + 1);
      var dispatch := Dispatch(FinalReviewerAgent, FinalReview, current.attempts, |current.ledger|);
      var opening := current.(dispatches := current.dispatches + [dispatch], verdict := Some(text.passes));
      FiledNamed(env, s, opening, text);
    }
  }

  // ---- the loops ----

  lemma {:induction false} GatesNamed(env: Env, max: int, s: Scenario, wf: Wf, todo: seq<Phase>)
    requires Readable(env, s) && Undisturbed(env, s, wf)
    ensures
      var flow := PhaseGates(env, max, s, wf, todo);
      FlowNamed(env, flow) && (flow.Go? ==> Undisturbed(env, s, flow.wf))
    decreases |todo|
  {
    hide Refusal, Ran, LastResult, Undisturbed, Readable, NamedBy, AllCarry;
    if todo != [] && todo[0] in s.gates {
      GuardNamed(env, s, wf, PhaseGate);
      var guarded := Guarded(env, wf, PhaseGate);
      if guarded.Go? {
        RanNamed(env, s, guarded.wf, todo[0], Initial, max, s.gates[todo[0]]);
        var ran := Ran(env, guarded.wf, todo[0], Initial, max, s.gates[todo[0]]);
        if LastResult(ran).status.Completed? {
          GatesNamed(env, max, s, ran, todo[1..]);
        }
      }
    }
  }

  lemma {:induction false} CorrectionsNamed(env: Env, max: int, s: Scenario, wf: Wf, routed: seq<(FindingId, Phase)>,
                                            todo: seq<Phase>)
    requires Readable(env, s) && Undisturbed(env, s, wf)
    ensures
      var flow := Corrections(env, max, s, wf, routed, todo);
      FlowNamed(env, flow) && (flow.Go? ==> Undisturbed(env, s, flow.wf))
    decreases |todo|
  {
    hide Refusal, Ran, LastResult, Undisturbed, Readable, NamedBy, AllCarry, Bridged, CorrectedRows, IdsOf, Resolutions;
    if todo != [] {
      var p := todo[0];
      GuardNamed(env, s, wf, CorrectionGate);
      var guarded := Guarded(env, wf, CorrectionGate);
      if guarded.Go? && Used(wf, p) < max && (p, wf.attempts) in s.corrections {
        var script := s.corrections[(p, wf.attempts)];
        RanNamed(env, s, guarded.wf, p, Correction(wf.attempts), max - Used(wf, p), script);
        var ran := Ran(env, guarded.wf, p, Correction(wf.attempts), max - Used(wf, p), script);
        var result := LastResult(ran);
        if result.status.Completed? {
          var rows := CorrectedRows(wf.attempts, p, IdsOf(routed, p), Resolutions(result));
          var next := ran.(corrected := ran.corrected + rows);
          TableIsNotRead(env, s, ran, next);
          CorrectionsNamed(env, max, s, next, routed, todo[1..]);
        }
      }
    }
  }

  lemma TableIsNotRead(env: Env, s: Scenario, wf: Wf, wf': Wf)
    requires Undisturbed(env, s, wf) && wf' == wf.(corrected := wf'.corrected)
    ensures Undisturbed(env, s, wf')
  {
    hide Quiet, HeadSettled, RunEntryRecord;
  }

  lemma {:induction false} RevalidationsNamed(env: Env, max: int, s: Scenario, wf: Wf, todo: seq<Phase>)
    requires Readable(env, s) && Undisturbed(env, s, wf)
    ensures
      var flow := Revalidations(env, max, s, wf, todo);
      FlowNamed(env, flow) && (flow.Go? ==> Undisturbed(env, s, flow.wf))
    decreases |todo|
  {
    hide Refusal, Ran, LastResult, Undisturbed, Readable, NamedBy, AllCarry;
    if todo != [] {
      var p := todo[0];
      GuardNamed(env, s, wf, RevalidationGate);
      var guarded := Guarded(env, wf, RevalidationGate);
      if guarded.Go? && Used(wf, p) < max && (p, wf.attempts) in s.revalidations {
        var script := s.revalidations[(p, wf.attempts)];
        RanNamed(env, s, guarded.wf, p, Revalidation(wf.attempts), max - Used(wf, p), script);
        var ran := Ran(env, guarded.wf, p, Revalidation(wf.attempts), max - Used(wf, p), script);
        if LastResult(ran).status.Completed? {
          RevalidationsNamed(env, max, s, ran, todo[1..]);
        }
      }
    }
  }

  lemma {:induction false} FinalLoopNamed(env: Env, max: int, s: Scenario, wf: Wf)
    requires Readable(env, s) && Undisturbed(env, s, wf)
    ensures FlowNamed(env, FinalLoop(env, max, s, wf))
    decreases max - wf.attempts
  {
    hide Attempt, Corrections, Revalidations, Responsible, Owners, Downstream, Undisturbed, Readable, FlowNamed;
    AttemptNamed(env, max, s, wf);
    var review := Attempt(env, max, s, wf);
    if review.Correct? {
      var responsible := Responsible(s.phases, Owners(review.routed));
      CorrectionsNamed(env, max, s, review.wf, review.routed, responsible);
      var corrected := Corrections(env, max, s, review.wf, review.routed, responsible);
      if corrected.Go? {
        var down := Downstream(env.risk, responsible, s.phases);
        RevalidationsNamed(env, max, s, corrected.wf, down);
        var flow := Revalidations(env, max, s, corrected.wf, down);
        if flow.Go? {
          FinalLoopNamed(env, max, s, flow.wf);
        }
      }
    }
  }

  /** Whenever a workflow run ends on a decision, in a phase gate, a correction, a revalidation or a
      Final Review: read again, the ledger it leaves is refused as disagreeing and reclassified as
      the very reason the run reported, or, when no agent declared its item open, admitted. */
  lemma WorkflowNamesItsTerminal(env: Env, max: int, s: Scenario)
    requires Readable(env, s)
    ensures FlowNamed(env, RunWorkflow(env, max, s))
  {
    hide PhaseGates, FinalLoop, RunEntryRecord, Readable, NamedBy, AllCarry;
    NothingDisturbed(env, s);
    GatesNamed(env, max, s, Opened(env, s), s.phases);
    var gated := PhaseGates(env, max, s, Opened(env, s), s.phases);
    if gated.Go? {
      FinalLoopNamed(env, max, s, gated.wf);
    }
  }

  lemma NothingDisturbed(env: Env, s: Scenario)
    ensures Undisturbed(env, s, Opened(env, s))
  {
    hide RunEntryRecord;
  }
}
