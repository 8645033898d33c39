/** Every finding of a failed Final Review is accounted for: no completed correction, and no attempt
    that is followed by another, leaves a finding routed to it out of the correction table. */
module WorkflowCorrections {
  import opened Vocabulary
  import opened Sequences
  import opened Gate
  import opened PhaseRun
  import opened Phases
  import opened Workflow
  import opened WorkflowOrder
  import opened WorkflowRecords

  /** What the failed review of an attempt routes, each blocking finding with its owner. */
  function RoutedBy(s: Scenario, attempt: nat): seq<(FindingId, Phase)> {
    if 1 <= attempt <= |s.finals| && s.finals[attempt - 1].FinalOutput? then
      var routed := Route(s.finals[attempt - 1].text.findings, s.phases);
      if routed.Ok? then routed.value else []
    else []
  }

  ghost predicate HasRow(table: seq<Corrected>, attempt: nat, id: FindingId, p: Phase) {
    exists j :: 0 <= j < |table| && table[j].attempt == attempt && table[j].finding == id && table[j].phase == p
  }

  /** A completed correction left a row for every finding routed to its phase. */
  ghost predicate Accounted(s: Scenario, wf: Wf, g: GateRun) {
    g.purpose.Correction? && g.result.status.Completed? ==>
      forall routed | routed in RoutedBy(s, g.purpose.attempt) && routed.1 == g.phase ::
        HasRow(wf.corrected, g.purpose.attempt, routed.0, routed.1)
  }

  ghost predicate AllAccounted(s: Scenario, wf: Wf) {
    forall k | 0 <= k < |wf.gates| :: Accounted(s, wf, wf.gates[k])
  }

  /** The same, but for a last correction whose Worker did not answer what was routed to it. */
  ghost predicate AccountedAtEnd(s: Scenario, wf: Wf, cause: Cause) {
    forall k | 0 <= k < |wf.gates| ::
      || Accounted(s, wf, wf.gates[k])
      || (k == |wf.gates| - 1 && cause == FinalReviewResolutionTraceIncomplete(wf.gates[k].phase))
  }

  /** Every finding of every attempt before `attempt` is in the table. */
  ghost predicate EarlierAccounted(s: Scenario, wf: Wf, attempt: nat) {
    forall a, routed | 1 <= a < attempt && routed in RoutedBy(s, a) :: HasRow(wf.corrected, a, routed.0, routed.1)
  }

  lemma RowStays(table: seq<Corrected>, longer: seq<Corrected>, attempt: nat, id: FindingId, p: Phase)
    requires table <= longer && HasRow(table, attempt, id, p)
    ensures HasRow(longer, attempt, id, p)
  {
    var j :| 0 <= j < |table| && table[j].attempt == attempt && table[j].finding == id && table[j].phase == p;
    assert longer[j] == table[j];
  }

  lemma StillAccounted(s: Scenario, wf: Wf, wf': Wf, g: GateRun)
    requires Accounted(s, wf, g) && wf.corrected <= wf'.corrected
    ensures Accounted(s, wf', g)
  {
    hide HasRow, RoutedBy;
    if g.purpose.Correction? && g.result.status.Completed? {
      var attempt := g.purpose.attempt;
      forall routed | routed in RoutedBy(s, attempt) && routed.1 == g.phase
        ensures HasRow(wf'.corrected, attempt, routed.0, routed.1)
      {
        RowStays(wf.corrected, wf'.corrected, attempt, routed.0, routed.1);
      }
    }
  }

  /** A longer table and rounds that are no corrections leave everything accounted. */
  lemma StaysAccounted(s: Scenario, wf: Wf, wf': Wf)
    requires AllAccounted(s, wf) && wf.corrected <= wf'.corrected && wf.gates <= wf'.gates
    requires forall k | |wf.gates| <= k < |wf'.gates| :: Accounted(s, wf', wf'.gates[k])
    ensures AllAccounted(s, wf')
  {
    hide HasRow, RoutedBy;
    forall k | 0 <= k < |wf'.gates| ensures Accounted(s, wf', wf'.gates[k]) {
      if k < |wf.gates| {
        assert wf'.gates[k] == wf.gates[k] && Accounted(s, wf, wf.gates[k]);
        StillAccounted(s, wf, wf', wf.gates[k]);
      }
    }
  }

  lemma StaysEarlier(s: Scenario, wf: Wf, wf': Wf, attempt: nat)
    requires EarlierAccounted(s, wf, attempt) && wf.corrected <= wf'.corrected
    ensures EarlierAccounted(s, wf', attempt)
  {
    hide HasRow, RoutedBy;
    forall a, routed | 1 <= a < attempt && routed in RoutedBy(s, a)
      ensures HasRow(wf'.corrected, a, routed.0, routed.1)
    {
      RowStays(wf.corrected, wf'.corrected, a, routed.0, routed.1);
    }
  }

  lemma {:induction false} IdsOfIs(routed: seq<(FindingId, Phase)>, p: Phase)
    ensures forall id :: id in IdsOf(routed, p) <==> (id, p) in routed
  {
    if routed != [] {
      IdsOfIs(routed[1..], p);
      assert routed == [routed[0]] + routed[1..];
    }
  }

  /** Tabling a completed correction's answers accounts for everything routed to it. */
  lemma TabledIsAccounted(s: Scenario, wf: Wf, p: Phase)
    requires Answers(wf, p, IdsOf(RoutedBy(s, wf.attempts), p))
    ensures
      var wf' := Tabled(wf, p, IdsOf(RoutedBy(s, wf.attempts), p));
      && Accounted(s, wf', wf'.gates[|wf'.gates| - 1])
      && forall routed | routed in RoutedBy(s, wf.attempts) && routed.1 == p ::
           HasRow(wf'.corrected, wf.attempts, routed.0, p)
  {
    hide RoutedBy, IdsOf;
    var routed := RoutedBy(s, wf.attempts);
    var ids := IdsOf(routed, p);
    var wf' := Tabled(wf, p, ids);
    IdsOfIs(routed, p);
    forall r | r in routed && r.1 == p ensures HasRow(wf'.corrected, wf.attempts, r.0, p) {
      assert (r.0, p) in routed;
      var i :| 0 <= i < |ids| && ids[i] == r.0;
      assert wf'.corrected[|wf.corrected| + i].finding == r.0;
    }
  }

  // ---- the loops ----

  lemma RanStaysAccounted(env: Env, s: Scenario, wf: Wf, p: Phase, purpose: Purpose, budget: int, script: Script)
    requires AllAccounted(s, wf)
    ensures
      var ran := Ran(env, wf, p, purpose, budget, script);
      && ran.attempts == wf.attempts && ran.corrected == wf.corrected
      && |ran.gates| == |wf.gates| + 1 && ran.gates[..|wf.gates|] == wf.gates
      && ((purpose.Correction? && LastResult(ran).status.Completed?) || AllAccounted(s, ran))
  {
    hide HasRow, RoutedBy, AllAccounted;
    RanKeepsAttempts(env, wf, p, purpose, budget, script);
    hide Ran;
    var ran := Ran(env, wf, p, purpose, budget, script);
    if !(purpose.Correction? && LastResult(ran).status.Completed?) {
      StaysAccounted(s, wf, ran);
    }
  }

  lemma GuardStaysAccounted(env: Env, s: Scenario, wf: Wf, site: Site)
    requires AllAccounted(s, wf)
    ensures AllAccounted(s, Guarded(env, wf, site).wf)
  {
    hide Refusal, HasRow, RoutedBy, AllAccounted;
    StaysAccounted(s, wf, Guarded(env, wf, site).wf);
  }

  lemma AccountedEnds(s: Scenario, wf: Wf, cause: Cause)
    requires AllAccounted(s, wf)
    ensures AccountedAtEnd(s, wf, cause)
  {
    hide Accounted;
  }

  /** What the corrections of one attempt leave: every routed finding of the phases done. */
  ghost predicate CorrectedAll(s: Scenario, wf: Wf, after: Flow, todo: seq<Phase>) {
    && wf.corrected <= after.wf.corrected && after.wf.attempts == wf.attempts
    && if after.Stop? then AccountedAtEnd(s, after.wf, after.cause)
       else
         && AllAccounted(s, after.wf)
         && forall routed | routed in RoutedBy(s, wf.attempts) && routed.1 in todo ::
              HasRow(after.wf.corrected, wf.attempts, routed.0, routed.1)
  }

  lemma {:induction false} CorrectionsAccount(env: Env, max: int, s: Scenario, wf: Wf, todo: seq<Phase>)
    requires AllAccounted(s, wf)
    ensures CorrectedAll(s, wf, Corrections(env, max, s, wf, RoutedBy(s, wf.attempts), todo), todo)
    decreases |todo|
  {
    hide Refusal, Ran, LastResult, Bridged, Answers, CorrectedRows, IdsOf, Resolutions, RoutedBy, HasRow,
         AllAccounted, AccountedAtEnd;
    var routed := RoutedBy(s, wf.attempts);
    if todo != [] {
      var p := todo[0];
      var guarded := Guarded(env, wf, CorrectionGate);
      GuardStaysAccounted(env, s, wf, CorrectionGate);
      if guarded.Stop? {
        AccountedEnds(s, guarded.wf, guarded.cause);
      } else {
        AccountedEnds(s, guarded.wf, PhaseMaxIterationsReached(p));
        AccountedEnds(s, guarded.wf, ScenarioCorrectionMissing);
        if Used(wf, p) < max && (p, wf.attempts) in s.corrections {
          CorrectionAccounts(env, max, s, guarded.wf, p, max - Used(wf, p), s.corrections[(p, wf.attempts)]);
          var script := s.corrections[(p, wf.attempts)];
          var ran := Ran(env, guarded.wf, p, Correction(wf.attempts), max - Used(wf, p), script);
          var ids := IdsOf(routed, p);
          if Bridged(LastResult(ran), set id | id in ids) && LastResult(ran).status.Completed? {
            var next := Tabled(ran, p, ids);
            CorrectionsAccount(env, max, s, next, todo[1..]);
            var after := Corrections(env, max, s, next, routed, todo[1..]);
            OneMoreCorrected(s, wf, next, after, todo);
          }
        }
      }
    }
  }

  lemma OneMoreCorrected(s: Scenario, wf: Wf, next: Wf, after: Flow, todo: seq<Phase>)
    requires todo != [] && CorrectedAll(s, next, after, todo[1..])
    requires next.attempts == wf.attempts && wf.corrected <= next.corrected
    requires forall routed | routed in RoutedBy(s, wf.attempts) && routed.1 == todo[0] ::
               HasRow(next.corrected, wf.attempts, routed.0, todo[0])
    ensures CorrectedAll(s, wf, after, todo)
  {
    hide RoutedBy, HasRow, AllAccounted, AccountedAtEnd;
    forall routed | after.Go? && routed in RoutedBy(s, wf.attempts) && routed.1 in todo
      ensures HasRow(after.wf.corrected, wf.attempts, routed.0, routed.1)
    {
      if routed.1 == todo[0] {
        RowStays(next.corrected, after.wf.corrected, wf.attempts, routed.0, todo[0]);
      }
    }
  }

  /** One correction: what it leaves however it ends. */
  lemma CorrectionAccounts(env: Env, max: int, s: Scenario, wf: Wf, p: Phase, budget: int, script: Script)
    requires AllAccounted(s, wf)
    ensures
      var ran := Ran(env, wf, p, Correction(wf.attempts), budget, script);
      var ids := IdsOf(RoutedBy(s, wf.attempts), p);
      && ran.attempts == wf.attempts && ran.corrected == wf.corrected
      && AccountedAtEnd(s, ran, FinalReviewResolutionTraceIncomplete(p))
      && (!LastResult(ran).status.Completed? ==> forall cause :: AccountedAtEnd(s, ran, cause))
      && (Bridged(LastResult(ran), set id | id in ids) && LastResult(ran).status.Completed? ==>
            && AllAccounted(s, Tabled(ran, p, ids))
            && forall routed | routed in RoutedBy(s, wf.attempts) && routed.1 == p ::
                 HasRow(Tabled(ran, p, ids).corrected, wf.attempts, routed.0, p))
  {
    hide RoutedBy, HasRow, Bridged, IdsOf, CorrectedRows, Resolutions, Answers;
    RanKeepsAttempts(env, wf, p, Correction(wf.attempts), budget, script);
    RanStaysAccounted(env, s, wf, p, Correction(wf.attempts), budget, script);
    var ids := IdsOf(RoutedBy(s, wf.attempts), p);
    if Bridged(LastResult(Ran(env, wf, p, Correction(wf.attempts), budget, script)), set id | id in ids)
       && LastResult(Ran(env, wf, p, Correction(wf.attempts), budget, script)).status.Completed? {
      BridgedAnswers(env, wf, p, budget, script, ids);
    }
    hide Ran;
    var ran := Ran(env, wf, p, Correction(wf.attempts), budget, script);
    forall k | 0 <= k < |wf.gates| ensures Accounted(s, ran, ran.gates[k]) {
      assert ran.gates[k] == wf.gates[k] && Accounted(s, wf, wf.gates[k]);
    }
    if !LastResult(ran).status.Completed? {
      forall cause ensures AccountedAtEnd(s, ran, cause) {
        AccountedEnds(s, ran, cause);
      }
    }
    if Bridged(LastResult(ran), set id | id in ids) && LastResult(ran).status.Completed? {
      TabledIsAccounted(s, ran, p);
      StaysAccounted(s, wf, Tabled(ran, p, ids));
    }
  }

  lemma {:induction false} RevalidationsAccount(env: Env, max: int, s: Scenario, wf: Wf, todo: seq<Phase>)
    requires AllAccounted(s, wf)
    ensures
      var flow := Revalidations(env, max, s, wf, todo);
      AllAccounted(s, flow.wf) && flow.wf.corrected == wf.corrected
    decreases |todo|
  {
    hide Refusal, Ran, LastResult, AllAccounted;
    if todo != [] {
      var p := todo[0];
      var guarded := Guarded(env, wf, RevalidationGate);
      GuardStaysAccounted(env, s, wf, RevalidationGate);
      if guarded.Go? && Used(wf, p) < max && (p, wf.attempts) in s.revalidations {
        var script := s.revalidations[(p, wf.attempts)];
        RanStaysAccounted(env, s, guarded.wf, p, Revalidation(wf.attempts), max - Used(wf, p), script);
        RevalidationsAccount(env, max, s, Ran(env, guarded.wf, p, Revalidation(wf.attempts), max - Used(wf, p), script),
                             todo[1..]);
      }
    }
  }

  lemma {:induction false} GatesAccount(env: Env, max: int, s: Scenario, wf: Wf, todo: seq<Phase>)
    requires AllAccounted(s, wf)
    ensures AllAccounted(s, PhaseGates(env, max, s, wf, todo).wf)
    ensures PhaseGates(env, max, s, wf, todo).wf.attempts == wf.attempts
    decreases |todo|
  {
    hide Refusal, Ran, LastResult, AllAccounted;
    if todo != [] && todo[0] in s.gates {
      var guarded := Guarded(env, wf, PhaseGate);
      GuardStaysAccounted(env, s, wf, PhaseGate);
      if guarded.Go? {
        RanStaysAccounted(env, s, guarded.wf, todo[0], Initial, max, s.gates[todo[0]]);
        GatesAccount(env, max, s, Ran(env, guarded.wf, todo[0], Initial, max, s.gates[todo[0]]), todo[1..]);
      }
    }
  }

  /** An attempt touches neither the rounds nor the table; what it routes is what its review says. */
  lemma AttemptAccounts(env: Env, max: int, s: Scenario, wf: Wf)
    requires AllAccounted(s, wf)
    ensures
      var review := Attempt(env, max, s, wf);
      var after := if review.Correct? then review.wf else review.flow.wf;
      && AllAccounted(s, after) && after.corrected == wf.corrected && after.attempts <= wf.attempts + 1
      && (review.Correct? ==> review.routed == RoutedBy(s, review.wf.attempts))
  {
    hide Refusal, FiledReview, Route, AnyBlocking, Accounted, AllAccounted;
    var review := Attempt(env, max, s, wf);
    var after := if review.Correct? then review.wf else review.flow.wf;
    assert after.gates == wf.gates && after.corrected == wf.corrected && after.attempts <= wf.attempts + 1;
    StaysAccounted(s, wf, after);
  }

  /** Every routed finding has a phase that is corrected. */
  lemma OwnersAreCorrected(s: Scenario, attempt: nat)
    ensures
      var routed := RoutedBy(s, attempt);
      forall r | r in routed :: r.1 in Responsible(s.phases, Owners(routed))
  {
    var routed := RoutedBy(s, attempt);
    ResponsibleIs(s.phases, Owners(routed));
    forall r | r in routed ensures r.1 in s.phases && r.1 in Owners(routed) {
      if 1 <= attempt <= |s.finals| && s.finals[attempt - 1].FinalOutput? {
        var findings := s.finals[attempt - 1].text.findings;
        RouteIsExact(findings, s.phases);
        assert (r.0, r.1) in routed;
        var i :| 0 <= i < |findings| && RoutedTo(findings[i], s.phases, r.0, r.1);
        LoweringIsNearest(findings[i].responsible.value, s.phases);
      }
    }
  }

  ghost predicate AllFindings(s: Scenario, flow: Flow) {
    flow.Stop? && AccountedAtEnd(s, flow.wf, flow.cause) && EarlierAccounted(s, flow.wf, flow.wf.attempts)
  }

  lemma {:induction false} FinalLoopAccounts(env: Env, max: int, s: Scenario, wf: Wf)
    requires AllAccounted(s, wf) && EarlierAccounted(s, wf, wf.attempts + 1)
    ensures AllFindings(s, FinalLoop(env, max, s, wf))
    decreases max - wf.attempts
  {
    hide Attempt, Corrections, Revalidations, Responsible, Owners, Downstream, RoutedBy, HasRow, AllAccounted,
         AccountedAtEnd;
    AttemptAccounts(env, max, s, wf);
    var review := Attempt(env, max, s, wf);
    if review.Decided? {
      AccountedEnds(s, review.flow.wf, review.flow.cause);
    } else {
      var wf1 := review.wf;
      var responsible := Responsible(s.phases, Owners(review.routed));
      CorrectionsAccount(env, max, s, wf1, responsible);
      var corrected := Corrections(env, max, s, wf1, review.routed, responsible);
      StaysEarlier(s, wf, corrected.wf, wf1.attempts);
      if corrected.Go? {
        OwnersAreCorrected(s, wf1.attempts);
        assert EarlierAccounted(s, corrected.wf, wf1.attempts + 1);
        var down := Downstream(env.risk, responsible, s.phases);
        RevalidationsAccount(env, max, s, corrected.wf, down);
        var flow := Revalidations(env, max, s, corrected.wf, down);
        StaysEarlier(s, corrected.wf, flow.wf, wf1.attempts + 1);
        if flow.Go? {
          FinalLoopAccounts(env, max, s, flow.wf);
        } else {
          AccountedEnds(s, flow.wf, flow.cause);
        }
      }
    }
  }

  /** Every run, however it ends: a correction that completed left a row for every finding its attempt
      routed to its phase, unless the run ended on that very correction because its Worker answered
      other findings; and no blocking finding of an attempt that was followed by another is missing. */
  lemma EveryFindingWasCorrected(env: Env, max: int, s: Scenario)
    ensures
      var flow := RunWorkflow(env, max, s);
      && AccountedAtEnd(s, flow.wf, flow.cause)
      && EarlierAccounted(s, flow.wf, flow.wf.attempts)
  {
    hide PhaseGates, FinalLoop, RunEntryRecord, RoutedBy, HasRow, AccountedAtEnd;
    var start := Opened(env, s);
    NothingToAccount(env, s);
    GatesAccount(env, max, s, start, s.phases);
    var gated := PhaseGates(env, max, s, start, s.phases);
    if gated.Go? {
      FinalLoopAccounts(env, max, s, gated.wf);
    } else {
      AccountedEnds(s, gated.wf, gated.cause);
    }
  }

  lemma NothingToAccount(env: Env, s: Scenario)
    ensures AllAccounted(s, Opened(env, s))
  {
    hide RunEntryRecord;
  }
}
