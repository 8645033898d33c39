/** Why a run ended: what each reported cause says of the scenario, the budgets, the last round and the
    last Final Review. */
module WorkflowEnds {
  import opened Vocabulary
  import opened Gate
  import opened PhaseRun
  import opened Phases
  import opened Workflow
  import opened PhaseRunRecords
  import opened WorkflowCorrections

  /** The answer of the Final Reviewer of the current attempt. */
  ghost predicate Answered(s: Scenario, wf: Wf, turn: FinalTurn) {
    1 <= wf.attempts <= |s.finals| && s.finals[wf.attempts - 1] == turn
  }

  predicate EndsWith(flow: Flow, status: Status, block: Option<Block>) {
    flow.Stop? && flow.status == status && flow.block == block
  }

  /** Finding i is the first blocking one that no requested phase owns: it names a phase out of scope,
      or none at all. */
  ghost predicate FirstUnowned(findings: seq<Finding>, phases: seq<Phase>, named: bool, i: nat)
    requires i < |findings|
  {
    && findings[i].blocking
    && (forall j | 0 <= j < i && findings[j].blocking ::
          findings[j].responsible.Some? && LowerToRequestedPhase(findings[j].responsible.value, phases).Some?)
    && if named then findings[i].responsible.Some? && LowerToRequestedPhase(findings[i].responsible.value, phases).None?
       else findings[i].responsible.None?
  }

  ghost predicate Unroutable(findings: seq<Finding>, phases: seq<Phase>, named: bool) {
    exists i | 0 <= i < |findings| :: FirstUnowned(findings, phases, named, i)
  }

  /** The round last run, for a correction or a revalidation of the current attempt. */
  ghost predicate LastRound(wf: Wf, p: Phase, purpose: Purpose, result: RunResult) {
    wf.gates != [] && var last := wf.gates[|wf.gates| - 1];
    last.phase == p && last.purpose == purpose && last.result == result
  }

  /** A block, or an input that could not be used. */
  function DecisionAxis(reason: Reason): Block {
    match reason
    case Blocked(state, code) => DecisionBlock(state, code)
    case _ => InputDefect(reason)
  }

  /** Why a Final Review is stopped on the decision axis, whatever its verdict. */
  ghost predicate RefusesReview(env: Env, text: FinalText, reason: Reason) {
    match ParseGateResult(env.judge, text.body)
    case Err(e) => reason == e
    case Ok(GateResult(state, record)) =>
      if Get(record, Verifies) != Null then reason == InputUnbound
      else state in {NeedsInput, Conflict} && reason == Blocked(state, Get(record, ReasonCode))
  }

  /** What a cause says of the run it ended. */
  ghost predicate Explained(env: Env, max: int, s: Scenario, flow: Flow)
    requires flow.Stop?
  {
    var wf := flow.wf;
    match flow.cause
    case Finished =>
      EndsWith(flow, Completed, None) && exists text: FinalText :: Answered(s, wf, FinalOutput(text)) && text.passes
    case OfRound(reason) =>
      && wf.gates != []
      && var last := wf.gates[|wf.gates| - 1];
      && EndsWith(flow, last.result.status, last.result.block) && last.result.reason == reason
      && last.result.status != Completed && (last.result.status == Escalated ==> last.purpose == Initial)
    case GuardRefused(reason) =>
      && EndsWith(flow, Stopped, Some(DecisionAxis(reason)))
      && wf.guards != [] && wf.guards[|wf.guards| - 1].refusal == Some(reason)
      && AdmitHead(env.judge, wf.ledger, env.run, wf.settled, None) == Err(reason)
    case DecisionRefused(reason) =>
      && EndsWith(flow, Stopped, Some(DecisionAxis(reason)))
      && exists text: FinalText :: Answered(s, wf, FinalOutput(text)) && RefusesReview(env, text, reason)
    case ScenarioPhaseMissing(p) => EndsWith(flow, Errored, None) && p in s.phases && p !in s.gates
    case ScenarioFinalReviewExhausted => EndsWith(flow, Errored, None) && wf.attempts > |s.finals|
    case ScenarioCorrectionMissing =>
      EndsWith(flow, Errored, None) && exists p :: (p, wf.attempts) !in s.corrections && Used(wf, p) < max
    case ScenarioRevalidationMissing =>
      EndsWith(flow, Errored, None) && exists p :: (p, wf.attempts) !in s.revalidations && Used(wf, p) < max
    case FinalReviewModifiedProtectedArtifact => EndsWith(flow, Errored, None) && Answered(s, wf, FinalModified)
    case FinalReviewUnexpectedExit(code) => EndsWith(flow, Errored, None) && Answered(s, wf, FinalExit(code))
    case MalformedFinalReviewOutput =>
      && EndsWith(flow, Errored, None)
      && (|| Answered(s, wf, FinalMalformed)
          || exists text: FinalText ::
               && Answered(s, wf, FinalOutput(text)) && !text.passes && wf.attempts < max
               && (|| (forall i | 0 <= i < |text.findings| :: !text.findings[i].blocking)
                   || Unroutable(text.findings, s.phases, false)))
    case OutOfScopeFinalReviewFinding =>
      && EndsWith(flow, Escalated, None)
      && exists text: FinalText ::
           && Answered(s, wf, FinalOutput(text)) && !text.passes && wf.attempts < max
           && Unroutable(text.findings, s.phases, true)
    case FinalReviewMaxIterationsReached =>
      && EndsWith(flow, Escalated, None) && wf.attempts >= max
      && exists text: FinalText :: Answered(s, wf, FinalOutput(text)) && !text.passes
    case PhaseMaxIterationsReached(p) =>
      && EndsWith(flow, Escalated, None)
      && (|| Used(wf, p) >= max
          || exists result: RunResult ::
               && result.status == Escalated
               && (LastRound(wf, p, Correction(wf.attempts), result)
                   || LastRound(wf, p, Revalidation(wf.attempts), result)))
    case FinalReviewResolutionTraceIncomplete(p) =>
      && EndsWith(flow, Errored, None)
      && exists result: RunResult ::
           && LastRound(wf, p, Correction(wf.attempts), result)
           && result.workers != [] && !(result.status == Stopped && result.iteration == 1)
           && result.workers[0].resolutions.Keys
              != set routed | routed in RoutedBy(s, wf.attempts) && routed.1 == p :: routed.0
  }

  // ---- routing ----

  lemma {:induction false} RouteFails(findings: seq<Finding>, phases: seq<Phase>)
    requires Route(findings, phases).Err?
    ensures || (Route(findings, phases).error == (Errored, MalformedFinalReviewOutput)
                && Unroutable(findings, phases, false))
            || (Route(findings, phases).error == (Escalated, OutOfScopeFinalReviewFinding)
                && Unroutable(findings, phases, true))
  {
    hide LowerToRequestedPhase;
    var first := findings[0];
    if first.blocking && first.responsible.None? {
      UnroutableAt(findings, phases, false, 0);
    } else if first.blocking && LowerToRequestedPhase(first.responsible.value, phases).None? {
      UnroutableAt(findings, phases, true, 0);
    } else {
      RouteFails(findings[1..], phases);
      var named := Route(findings, phases).error.0 == Escalated;
      var i :| 0 <= i < |findings[1..]| && FirstUnowned(findings[1..], phases, named, i);
      forall j | 0 <= j < i + 1 && findings[j].blocking
        ensures findings[j].responsible.Some? && LowerToRequestedPhase(findings[j].responsible.value, phases).Some?
      {
        if j > 0 {
          assert findings[j] == findings[1..][j - 1];
        }
      }
      UnroutableAt(findings, phases, named, i + 1);
    }
  }

  lemma UnroutableAt(findings: seq<Finding>, phases: seq<Phase>, named: bool, i: nat)
    requires i < |findings| && FirstUnowned(findings, phases, named, i)
    ensures Unroutable(findings, phases, named)
  {
  }

  // ---- the steps of a run ----

  lemma GuardExplained(env: Env, max: int, s: Scenario, wf: Wf, site: Site)
    requires Guarded(env, wf, site).Stop?
    ensures Explained(env, max, s, Guarded(env, wf, site))
  {
    hide AdmitHead;
  }

  lemma RoundExplained(env: Env, max: int, s: Scenario, wf: Wf)
    requires wf.gates != [] && !LastResult(wf).status.Completed?
    requires LastResult(wf).status.Escalated? ==> wf.gates[|wf.gates| - 1].purpose.Initial?
    ensures
      var result := LastResult(wf);
      Explained(env, max, s, Stop(wf, result.status, OfRound(result.reason), result.block))
  {
  }

  lemma RoundStopExplained(env: Env, max: int, s: Scenario, wf: Wf, p: Phase)
    requires wf.gates != [] && !LastResult(wf).status.Completed? && wf.gates[|wf.gates| - 1].phase == p
    requires wf.gates[|wf.gates| - 1].purpose in {Correction(wf.attempts), Revalidation(wf.attempts)}
    ensures RoundStop(wf, p, LastResult(wf)).Stop? && Explained(env, max, s, RoundStop(wf, p, LastResult(wf)))
  {
    var result := LastResult(wf);
    assert LastRound(wf, p, Correction(wf.attempts), result) || LastRound(wf, p, Revalidation(wf.attempts), result);
  }

  lemma RanIs(env: Env, wf: Wf, p: Phase, purpose: Purpose, budget: int, script: Script)
    ensures
      var ran := Ran(env, wf, p, purpose, budget, script);
      && ran.attempts == wf.attempts && ran.gates == wf.gates + [GateRun(purpose, p, budget, LastResult(ran))]
      && ran.gates[|ran.gates| - 1] == GateRun(purpose, p, budget, LastResult(ran))
  {
    hide RunPhase, Charge, Numbered;
  }

  lemma {:induction false} GatesExplained(env: Env, max: int, s: Scenario, wf: Wf, todo: seq<Phase>)
    requires forall p | p in todo :: p in s.phases
    ensures
      var flow := PhaseGates(env, max, s, wf, todo);
      && flow.wf.attempts == wf.attempts && (flow.Stop? ==> Explained(env, max, s, flow))
    decreases |todo|
  {
    hide Refusal, Ran, LastResult;
    if todo != [] && todo[0] in s.gates {
      var guarded := Guarded(env, wf, PhaseGate);
      if guarded.Stop? {
        GuardExplained(env, max, s, wf, PhaseGate);
      } else {
        RanIs(env, guarded.wf, todo[0], Initial, max, s.gates[todo[0]]);
        var ran := Ran(env, guarded.wf, todo[0], Initial, max, s.gates[todo[0]]);
        hide Explained;
        if LastResult(ran).status.Completed? {
          GatesExplained(env, max, s, ran, todo[1..]);
        } else {
          RoundExplained(env, max, s, ran);
        }
      }
    }
  }

  lemma GateErrors(env: Env, body: Body)
    ensures ParseGateResult(env.judge, body).Err? ==> !ParseGateResult(env.judge, body).error.Blocked?
  {
  }

  lemma FiledExplained(env: Env, max: int, s: Scenario, wf: Wf, text: FinalText)
    requires Answered(s, wf, FinalOutput(text)) && FiledReview(env, wf, text).Stop?
    ensures Explained(env, max, s, FiledReview(env, wf, text))
  {
    GateErrors(env, text.body);
    hide ParseGateResult, Stamped;
    var reason := FiledReview(env, wf, text).cause.reason;
    assert RefusesReview(env, text, reason);
    assert Answered(s, FiledReview(env, wf, text).wf, FinalOutput(text));
  }

  lemma JudgedExplained(env: Env, max: int, s: Scenario, wf: Wf, text: FinalText)
    requires Answered(s, wf, FinalOutput(text))
    ensures
      var review := Judged(max, s, wf, text);
      if review.Correct? then
        review.routed == RoutedBy(s, wf.attempts) && !text.passes && wf.attempts < max
      else Explained(env, max, s, review.flow)
  {
    hide Route, Unroutable;
    if !text.passes && wf.attempts < max && AnyBlocking(text.findings) && Route(text.findings, s.phases).Err? {
      RouteFails(text.findings, s.phases);
    }
  }

  lemma AttemptExplained(env: Env, max: int, s: Scenario, wf: Wf)
    ensures
      var review := Attempt(env, max, s, wf);
      if review.Correct? then
        review.wf.attempts == wf.attempts + 1 && review.routed == RoutedBy(s, review.wf.attempts)
      else Explained(env, max, s, review.flow)
  {
    hide Refusal, FiledReview, Judged, RoutedBy;
    var guarded := Guarded(env, wf, FinalGate);
    var n := wf.attempts + 1;
    if guarded.Stop? {
      GuardExplained(env, max, s, wf, FinalGate);
    } else if n <= |s.finals| && s.finals[n - 1].FinalOutput? {
      var text := s.finals[n - 1].text;
      var d := Dispatch(FinalReviewerAgent, FinalReview, n, |guarded.wf.ledger|);
      var read := guarded.wf.(attempts := n, dispatches := guarded.wf.dispatches + [d], verdict := Some(text.passes));
      hide Explained;
      if FiledReview(env, read, text).Stop? {
        FiledExplained(env, max, s, read, text);
      } else {
        JudgedExplained(env, max, s, FiledReview(env, read, text).wf, text);
      }
    }
  }

  lemma {:induction false} CorrectionsExplained(env: Env, max: int, s: Scenario, wf: Wf, todo: seq<Phase>)
    ensures
      var flow := Corrections(env, max, s, wf, RoutedBy(s, wf.attempts), todo);
      flow.Stop? ==> Explained(env, max, s, flow)
    decreases |todo|
  {
    hide Refusal, Ran, LastResult, CorrectedRows, Resolutions, RoutedBy, RoundStop, IdsOf;
    if todo != [] {
      var p := todo[0];
      var guarded := Guarded(env, wf, CorrectionGate);
      if guarded.Stop? {
        GuardExplained(env, max, s, wf, CorrectionGate);
      } else if Used(wf, p) < max && (p, wf.attempts) in s.corrections {
        var script := s.corrections[(p, wf.attempts)];
        RanIs(env, guarded.wf, p, Correction(wf.attempts), max - Used(wf, p), script);
        var ran := Ran(env, guarded.wf, p, Correction(wf.attempts), max - Used(wf, p), script);
        var result := LastResult(ran);
        var ids := IdsOf(RoutedBy(s, wf.attempts), p);
        if !Bridged(result, set id | id in ids) {
          Unbridged(env, max, s, ran, p);
        } else if !result.status.Completed? {
          hide Explained;
          RoundStopExplained(env, max, s, ran, p);
        } else {
          hide Explained;
          var rows := CorrectedRows(wf.attempts, p, ids, Resolutions(result));
          CorrectionsExplained(env, max, s, ran.(corrected := ran.corrected + rows), todo[1..]);
        }
      }
    }
  }

  lemma Unbridged(env: Env, max: int, s: Scenario, ran: Wf, p: Phase)
    requires ran.gates != [] && ran.gates[|ran.gates| - 1].phase == p
    requires ran.gates[|ran.gates| - 1].purpose == Correction(ran.attempts)
    requires
      var ids := IdsOf(RoutedBy(s, ran.attempts), p);
      !Bridged(LastResult(ran), set id | id in ids)
    ensures Explained(env, max, s, Stop(ran, Errored, FinalReviewResolutionTraceIncomplete(p), None))
  {
    hide RoutedBy, IdsOf;
    var routed := RoutedBy(s, ran.attempts);
    var ids := IdsOf(routed, p);
    IdsOfIs(routed, p);
    assert (set id | id in ids) == set r | r in routed && r.1 == p :: r.0;
    assert LastRound(ran, p, Correction(ran.attempts), LastResult(ran));
  }

  lemma {:induction false} RevalidationsExplained(env: Env, max: int, s: Scenario, wf: Wf, todo: seq<Phase>)
    ensures
      var flow := Revalidations(env, max, s, wf, todo);
      flow.Stop? ==> Explained(env, max, s, flow)
    decreases |todo|
  {
    hide Refusal, Ran, LastResult, RoundStop;
    if todo != [] {
      var p := todo[0];
      var guarded := Guarded(env, wf, RevalidationGate);
      if guarded.Stop? {
        GuardExplained(env, max, s, wf, RevalidationGate);
      } else if Used(wf, p) < max && (p, wf.attempts) in s.revalidations {
        var script := s.revalidations[(p, wf.attempts)];
        RanIs(env, guarded.wf, p, Revalidation(wf.attempts), max - Used(wf, p), script);
        var ran := Ran(env, guarded.wf, p, Revalidation(wf.attempts), max - Used(wf, p), script);
        hide Explained;
        if LastResult(ran).status.Completed? {
          RevalidationsExplained(env, max, s, ran, todo[1..]);
        } else {
          RoundStopExplained(env, max, s, ran, p);
        }
      }
    }
  }

  lemma {:induction false} FinalLoopExplained(env: Env, max: int, s: Scenario, wf: Wf)
    ensures Explained(env, max, s, FinalLoop(env, max, s, wf))
    decreases max - wf.attempts
  {
    hide Attempt, Corrections, Revalidations, Responsible, Owners, Downstream, Explained, RoutedBy;
    AttemptExplained(env, max, s, wf);
    var review := Attempt(env, max, s, wf);
    if review.Correct? {
      var responsible := Responsible(s.phases, Owners(review.routed));
      CorrectionsExplained(env, max, s, review.wf, responsible);
      var corrected := Corrections(env, max, s, review.wf, review.routed, responsible);
      if corrected.Go? {
        var down := Downstream(env.risk, responsible, s.phases);
        RevalidationsExplained(env, max, s, corrected.wf, down);
        var flow := Revalidations(env, max, s, corrected.wf, down);
        if flow.Go? {
          FinalLoopExplained(env, max, s, flow.wf);
        }
      }
    }
  }

  /** Every run ends for a reason that holds: its status, its block and its cause are those of what the
      scenario answered last, of the budget spent or of the ledger as the guard read it. */
  lemma EveryEndIsExplained(env: Env, max: int, s: Scenario)
    ensures Explained(env, max, s, RunWorkflow(env, max, s))
  {
    hide PhaseGates, FinalLoop, RunEntryRecord, Explained;
    GatesExplained(env, max, s, Opened(env, s), s.phases);
    var gated := PhaseGates(env, max, s, Opened(env, s), s.phases);
    if gated.Go? {
      FinalLoopExplained(env, max, s, gated.wf);
    }
  }

  /** A Final Review's declaration is published, under its attempt and with its verdict, exactly when it
      can be read and verifies nothing, whatever it declares. */
  lemma ReviewIsPublished(env: Env, wf: Wf, text: FinalText)
    ensures
      var after := FiledReview(env, wf, text).wf;
      match ParseGateResult(env.judge, text.body)
      case Err(_) => after == wf
      case Ok(GateResult(_, declared)) =>
        if Get(declared, Verifies) != Null then after == wf
        else
          && |after.ledger| == |wf.ledger| + 1 && wf.ledger <= after.ledger
          && Publishes(env, after.ledger[|wf.ledger|], declared, FinalReview, wf.attempts, FinalReviewerAgent,
                       if text.passes then "PASS" else "FAIL", |wf.ledger|)
          && after.settled == Some(Settled(env.run, Str(PhaseName(FinalReview)), Int(wf.attempts)))
  {
    hide ParseGateResult, Stamped, Publishes;
    var read := ParseGateResult(env.judge, text.body);
    if read.Ok? {
      var slot := Slot(FinalReview, wf.attempts, FinalReviewerAgent, VerdictText(text.passes), Null, |wf.ledger|);
      if Get(read.value.record, Verifies) == Null {
        StampedPublishes(env, read.value.record, slot, if text.passes then "PASS" else "FAIL");
      }
    }
  }
}
