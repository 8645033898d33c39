/** What every workflow run keeps, whatever its agents answer: decision safety, iteration budgets,
    and guards that refuse exactly the ledgers an agent left a reason code out of. */
module WorkflowFacts {
  import opened Vocabulary
  import opened Sequences
  import opened Gate
  import opened PhaseRun
  import opened PhaseRunFacts
  import opened Stamping
  import opened RunLedger
  import opened Workflow

  // ---- the invariant between rounds ----

  function Entry(env: Env, s: Scenario): Record {
    RunEntryRecord(env, s.entry, s.opening)
  }

  /** Nothing filed blocks, the last round filed the ledger's head, no dispatch looked ahead. */
  ghost predicate Undisturbed(env: Env, s: Scenario, wf: Wf) {
    && Quiet(env, Entry(env, s), wf.ledger)
    && HeadSettled(wf.ledger, wf.settled)
    && (forall j | 0 <= j < |wf.dispatches| :: wf.dispatches[j].after <= |wf.ledger|)
  }

  /** What the rounds run so far charge to a phase. */
  function Charged(risk: Risk, gates: seq<GateRun>, p: Phase): int {
    if gates == [] then 0
    else
      var last := gates[|gates| - 1];
      Charged(risk, gates[..|gates| - 1], p) + if last.phase == p then Charge(risk, last.result) else 0
  }

  /** Every phase has been charged for its own rounds and no more, never beyond `max`; every
      correction and revalidation got exactly what was left, and something was. */
  ghost predicate WithinBudget(env: Env, max: int, wf: Wf) {
    && (forall p :: Used(wf, p) == Charged(env.risk, wf.gates, p))
    && (forall p :: 0 <= Used(wf, p) && (Used(wf, p) == 0 || Used(wf, p) <= max))
    && (forall k | 0 <= k < |wf.gates| :: wf.gates[k].budget
          == max - if wf.gates[k].purpose.Initial? then 0 else Charged(env.risk, wf.gates[..k], wf.gates[k].phase))
    && (forall k | 0 <= k < |wf.gates| && !wf.gates[k].purpose.Initial? :: wf.gates[k].budget >= 1)
  }

  /** Each guard refused exactly the ledgers in which some agent's record lacks its reason code. */
  ghost predicate GuardsExact(wf: Wf) {
    forall k | 0 <= k < |wf.guards| ::
      var g := wf.guards[k];
      && 1 <= g.seen <= |wf.ledger| && g.ran <= |wf.gates|
      && g.refusal == if AllCarry(wf.ledger[..g.seen]) then None else Some(InputMalformed)
  }

  ghost predicate Inv(env: Env, max: int, s: Scenario, wf: Wf) {
    && Undisturbed(env, s, wf)
    && WithinBudget(env, max, wf)
    && (Steady(env) && GoodEntry(env, Entry(env, s)) ==> GuardsExact(wf))
  }

  /** A blocking record ends the run BLOCKED or ERROR with at most its own verification still to
      come; a run that completes holds no blocking record and passed its last Final Review. */
  ghost predicate Safe(env: Env, wf: Wf, status: Status) {
    && (forall i | 1 <= i < |wf.ledger| && IsBlocking(wf.ledger[i]) ::
          status in {Stopped, Errored} && OnlyVerified(env, wf.ledger[i], i, wf.dispatches))
    && (status.Completed? ==> wf.verdict == Some(true))
  }

  /** What is true of every workflow run that has ended. */
  ghost predicate Ending(env: Env, max: int, s: Scenario, wf: Wf, status: Status) {
    && Safe(env, wf, status)
    && WithinBudget(env, max, wf)
    && (Steady(env) && GoodEntry(env, Entry(env, s)) ==> GuardsExact(wf))
    && (wf.attempts <= 1 || wf.attempts <= max)
  }

  lemma InvEnds(env: Env, max: int, s: Scenario, wf: Wf, status: Status)
    requires Inv(env, max, s, wf) && (wf.attempts <= 1 || wf.attempts <= max)
    requires status.Completed? ==> wf.verdict == Some(true)
    ensures Ending(env, max, s, wf, status)
  {
    CleanDoesNotBlock(env, wf.ledger, 1);
  }

  // ---- the guard ----

  lemma GuardedKeeps(env: Env, max: int, s: Scenario, wf: Wf, site: Site)
    requires Inv(env, max, s, wf)
    ensures Inv(env, max, s, Guarded(env, wf, site).wf)
  {
    hide AdmitHead, Quiet, HeadSettled, AllCarry, WithinBudget, Steady, GoodEntry, Charged, RunEntryRecord;
    var wf' := Guarded(env, wf, site).wf;
    assert wf'.ledger == wf.ledger && wf'.gates == wf.gates;
    BudgetIgnoresTheRest(env, max, wf, wf');
    if Steady(env) && GoodEntry(env, Entry(env, s)) {
      GuardIffAllCarry(env, Entry(env, s), wf.ledger, wf.settled);
      assert wf.ledger[..|wf.ledger|] == wf.ledger;
      QuietIsNotEmpty(env, Entry(env, s), wf.ledger);
    }
  }

  lemma QuietIsNotEmpty(env: Env, entry: Record, ledger: seq<Record>)
    requires Quiet(env, entry, ledger)
    ensures |ledger| >= 1
  {
  }

  lemma BudgetIgnoresTheRest(env: Env, max: int, wf: Wf, wf': Wf)
    requires WithinBudget(env, max, wf) && wf'.gates == wf.gates && wf'.iterations == wf.iterations
    ensures WithinBudget(env, max, wf')
  {
    assert forall p :: Used(wf', p) == Used(wf, p);
  }

  // ---- one round ----

  lemma ChargeIsBounded(env: Env, p: Phase, budget: int, ledger: seq<Record>, dispatches: seq<Dispatch>, end: End)
    requires RunEnd(env, p, budget, ledger, dispatches, end)
    ensures Charge(env.risk, end.result) == 0 || Charge(env.risk, end.result) <= budget
  {
    hide Grown, CleanFrom, OnlyVerified, Settles;
  }

  lemma RanIsBudgeted(env: Env, max: int, wf: Wf, p: Phase, purpose: Purpose, budget: int, script: Script)
    requires WithinBudget(env, max, wf)
    requires if purpose.Initial? then budget == max && Used(wf, p) == 0 else budget == max - Used(wf, p) && budget >= 1
    ensures WithinBudget(env, max, Ran(env, wf, p, purpose, budget, script))
  {
    hide RunPhase, RunEnd, Charge, Numbered;
    var ran := Ran(env, wf, p, purpose, budget, script);
    var end := RunPhase(env, p, budget, script, wf.ledger, wf.dispatches);
    RunKeeps(env, p, budget, script, wf.ledger, wf.dispatches);
    ChargeIsBounded(env, p, budget, wf.ledger, wf.dispatches, end);
    var n := |wf.gates|;
    assert ran.gates[..n] == wf.gates;
    forall q ensures Used(ran, q) == Used(wf, q) + (if q == p then Charge(env.risk, end.result) else 0) {
    }
    forall q ensures Used(ran, q) == Charged(env.risk, ran.gates, q) {
      assert Used(wf, q) == Charged(env.risk, wf.gates, q);
    }
    forall k | 0 <= k < |ran.gates|
      ensures ran.gates[k].budget
              == max - if ran.gates[k].purpose.Initial? then 0 else Charged(env.risk, ran.gates[..k],
                                                                            ran.gates[k].phase)
      ensures !ran.gates[k].purpose.Initial? ==> ran.gates[k].budget >= 1
    {
      if k < n {
        assert ran.gates[..k] == wf.gates[..k] && ran.gates[k] == wf.gates[k];
      } else {
        assert Used(wf, p) == Charged(env.risk, wf.gates, p);
      }
    }
  }

  lemma GuardsSurvive(wf: Wf, wf': Wf)
    requires GuardsExact(wf) && wf'.guards == wf.guards && wf.ledger <= wf'.ledger && |wf.gates| <= |wf'.gates|
    ensures GuardsExact(wf')
  {
    hide AllCarry;
    forall k | 0 <= k < |wf'.guards|
      ensures 1 <= wf'.guards[k].seen <= |wf'.ledger|
      ensures wf'.ledger[..wf'.guards[k].seen] == wf.ledger[..wf'.guards[k].seen]
    {
      assert wf.guards[k].seen <= |wf.ledger|;
    }
  }

  lemma RanKeeps(env: Env, max: int, s: Scenario, wf: Wf, p: Phase, purpose: Purpose, budget: int, script: Script)
    requires Inv(env, max, s, wf) && (wf.attempts <= 1 || wf.attempts <= max)
    requires if purpose.Initial? then budget == max && Used(wf, p) == 0 else budget == max - Used(wf, p) && budget >= 1
    ensures
      var ran := Ran(env, wf, p, purpose, budget, script);
      var status := LastResult(ran).status;
      && ran.attempts == wf.attempts && ran.verdict == wf.verdict
      && (status.Completed? ==> Inv(env, max, s, ran))
      && (!status.Completed? ==> Ending(env, max, s, ran, status) && Ending(env, max, s, ran, Errored))
  {
    hide RunPhase, Charge, Numbered, WithinBudget, Undisturbed, GuardsExact, Steady, GoodEntry, RunEntryRecord;
    RanIsBudgeted(env, max, wf, p, purpose, budget, script);
    RanIsSafe(env, s, wf, p, purpose, budget, script);
    RanGuards(env, wf, p, purpose, budget, script);
  }

  lemma RanGuards(env: Env, wf: Wf, p: Phase, purpose: Purpose, budget: int, script: Script)
    ensures GuardsExact(wf) ==> GuardsExact(Ran(env, wf, p, purpose, budget, script))
  {
    RunKeeps(env, p, budget, script, wf.ledger, wf.dispatches);
    hide RunPhase, Charge, Numbered, CleanFrom, Settles, IsBlocking, GuardsExact, OnlyVerified;
    if GuardsExact(wf) {
      GuardsSurvive(wf, Ran(env, wf, p, purpose, budget, script));
    }
  }

  lemma RanIsSafe(env: Env, s: Scenario, wf: Wf, p: Phase, purpose: Purpose, budget: int, script: Script)
    requires Undisturbed(env, s, wf)
    ensures
      var ran := Ran(env, wf, p, purpose, budget, script);
      var status := LastResult(ran).status;
      && (status.Completed? ==> Undisturbed(env, s, ran))
      && (!status.Completed? ==> Safe(env, ran, status) && Safe(env, ran, Errored))
  {
    RunKeeps(env, p, budget, script, wf.ledger, wf.dispatches);
    var end := RunPhase(env, p, budget, script, wf.ledger, wf.dispatches);
    CleanDoesNotBlock(env, wf.ledger, 1);
    QuietGrows(env, Entry(env, s), p, budget, wf.ledger, wf.dispatches, end);
    BlockedRunIsSafe(env, p, budget, wf, end);
    hide RunPhase, Charge, Numbered, RunEntryRecord, Settles, Clean, IsBlocking, HeadSettled, Quiet, CleanFrom,
         OnlyVerified;
    forall j | 0 <= j < |end.dispatches| ensures end.dispatches[j].after <= |end.ledger| {
      if j < |wf.dispatches| {
        assert end.dispatches[j] == wf.dispatches[j];
      }
    }
  }

  lemma QuietGrows(env: Env, entry: Record, p: Phase, budget: int, ledger: seq<Record>, dispatches: seq<Dispatch>,
                   end: End)
    requires Quiet(env, entry, ledger) && RunEnd(env, p, budget, ledger, dispatches, end)
    ensures end.result.status.Completed? ==>
              && Quiet(env, entry, end.ledger)
              && HeadSettled(end.ledger, Some(Settled(env.run, Str(PhaseName(p)), Int(end.result.iteration))))
  {
    hide Clean, OnlyVerified, IsBlocking;
    if end.result.status.Completed? {
      forall i | 1 <= i < |end.ledger| ensures Clean(env, end.ledger[i], i) {
        if i < |ledger| {
          assert end.ledger[i] == ledger[i];
        }
      }
    }
  }

  lemma BlockedRunIsSafe(env: Env, p: Phase, budget: int, wf: Wf, end: End)
    requires forall i | 1 <= i < |wf.ledger| :: !IsBlocking(wf.ledger[i])
    requires forall j | 0 <= j < |wf.dispatches| :: wf.dispatches[j].after <= |wf.ledger|
    requires RunEnd(env, p, budget, wf.ledger, wf.dispatches, end)
    ensures forall i | 1 <= i < |end.ledger| && IsBlocking(end.ledger[i]) ::
              end.result.status in {Stopped, Errored} && OnlyVerified(env, end.ledger[i], i, end.dispatches)
  {
    hide CleanFrom, Settles, IsBlocking, IsItsVerification, OwnRounds;
    var n := |wf.dispatches|;
    assert forall i | 0 <= i < |wf.ledger| :: end.ledger[i] == wf.ledger[i];
    assert forall j | 0 <= j < n :: end.dispatches[j] == wf.dispatches[j];
    forall i | 1 <= i < |end.ledger| && IsBlocking(end.ledger[i])
      ensures end.result.status in {Stopped, Errored} && OnlyVerified(env, end.ledger[i], i, end.dispatches)
    {
      var tail := end.dispatches[n..];
      assert OnlyVerified(env, end.ledger[i], i, tail);
      forall j | 0 <= j < |end.dispatches| && end.dispatches[j].after > i
        ensures j == |end.dispatches| - 1 && IsItsVerification(env, end.ledger[i], i, end.dispatches[j])
      {
        assert end.dispatches[j] == tail[j - n];
      }
    }
  }

  // ---- a Final Review attempt ----

  /** The invariant reads neither the attempt counter nor the verdict nor the correction table. */
  lemma InvFrame(env: Env, max: int, s: Scenario, wf: Wf, wf': Wf)
    requires Inv(env, max, s, wf)
    requires wf'.ledger == wf.ledger && wf'.settled == wf.settled && wf'.iterations == wf.iterations
    requires wf'.gates == wf.gates && wf'.guards == wf.guards
    requires forall j | 0 <= j < |wf'.dispatches| :: wf'.dispatches[j].after <= |wf'.ledger|
    ensures Inv(env, max, s, wf')
  {
    hide Quiet, HeadSettled, WithinBudget, AllCarry, Steady, GoodEntry, RunEntryRecord;
    BudgetIgnoresTheRest(env, max, wf, wf');
  }

  function FinalSlot(wf: Wf, passes: bool): Slot {
    Slot(FinalReview, wf.attempts, FinalReviewerAgent, VerdictText(passes), Null, |wf.ledger|)
  }

  lemma FinalRecordIs(env: Env, wf: Wf, g: GateResult, passes: bool)
    requires env.judge.accepts(g.record) && Get(g.record, Field.State) == Str(StateName(g.declared))
    ensures
      var r := Stamped(env, g.record, FinalSlot(wf, passes));
      && (IsBlocking(r) <==> g.declared.Blocks())
      && (!IsBlocking(r) ==> Clean(env, r, |wf.ledger|))
      && Settles(env, r, FinalReview, wf.attempts)
  {
    hide Stamped, Stamps;
    var slot := FinalSlot(wf, passes);
    var r := Stamped(env, g.record, slot);
    StampedFields(env, g.record, slot);
    assert Filed(env, g.record, slot, r, |wf.ledger|);
  }

  lemma FinalRecordSettles(env: Env, s: Scenario, wf: Wf, g: GateResult, passes: bool)
    requires Undisturbed(env, s, wf) && env.judge.accepts(g.record)
    requires Get(g.record, Field.State) == Str(StateName(g.declared))
    ensures
      var r := Stamped(env, g.record, FinalSlot(wf, passes));
      var ledger := wf.ledger + [r];
      && (IsBlocking(r) <==> g.declared.Blocks())
      && (!IsBlocking(r) ==>
            && Quiet(env, Entry(env, s), ledger)
            && HeadSettled(ledger, Some(Settled(env.run, Str(PhaseName(FinalReview)), Int(wf.attempts)))))
  {
    hide Stamped, Clean, IsBlocking, RunEntryRecord, FinalSlot;
    FinalRecordIs(env, wf, g, passes);
  }

  lemma FiledKeeps(env: Env, max: int, s: Scenario, wf: Wf, text: FinalText)
    requires Inv(env, max, s, wf) && (wf.attempts <= 1 || wf.attempts <= max)
    ensures
      var filed := FiledReview(env, wf, text);
      && filed.wf.attempts == wf.attempts && filed.wf.verdict == wf.verdict
      && (filed.Go? ==> Inv(env, max, s, filed.wf))
      && (filed.Stop? ==> filed.status.Stopped? && Ending(env, max, s, filed.wf, Stopped))
  {
    hide ParseGateResult, Stamped, Quiet, HeadSettled, WithinBudget, AllCarry, Steady, GoodEntry, RunEntryRecord;
    var gate := ParseGateResult(env.judge, text.body);
    InvEnds(env, max, s, wf, Stopped);
    if gate.Ok? {
      AcceptedDeclares(env, text.body);
      FinalRecordSettles(env, s, wf, gate.value, text.passes);
      var filed := FiledReview(env, wf, text);
      BudgetIgnoresTheRest(env, max, wf, filed.wf);
      if GuardsExact(wf) {
        GuardsSurvive(wf, filed.wf);
      }
    }
  }

  lemma JudgedKeeps(env: Env, max: int, s: Scenario, wf: Wf, text: FinalText)
    requires Inv(env, max, s, wf) && (wf.attempts <= 1 || wf.attempts <= max) && wf.verdict == Some(text.passes)
    ensures
      var review := Judged(max, s, wf, text);
      && (review.Correct? ==> Inv(env, max, s, review.wf))
      && (review.Decided? ==> Ending(env, max, s, review.flow.wf, review.flow.status))
  {
    hide Inv, Ending, Route, AnyBlocking;
    forall status: Status | status.Completed? ==> text.passes ensures Ending(env, max, s, wf, status) {
      InvEnds(env, max, s, wf, status);
    }
  }

  lemma ReviewedKeeps(env: Env, max: int, s: Scenario, wf: Wf)
    requires Inv(env, max, s, wf) && wf.attempts >= 1 && (wf.attempts == 1 || wf.attempts <= max)
    ensures
      var review := Reviewed(env, max, s, wf);
      && (review.Correct? ==> Inv(env, max, s, review.wf))
      && (review.Decided? ==> Ending(env, max, s, review.flow.wf, review.flow.status))
  {
    hide Ending, FiledReview, Judged, Quiet, HeadSettled, WithinBudget, GuardsExact, Steady, GoodEntry, RunEntryRecord;
    var wf1 := wf.(dispatches := wf.dispatches + [Dispatch(FinalReviewerAgent, FinalReview, wf.attempts, |wf.ledger|)]);
    InvFrame(env, max, s, wf, wf1);
    InvEnds(env, max, s, wf, Errored);
    InvEnds(env, max, s, wf1, Errored);
    if wf.attempts <= |s.finals| && s.finals[wf.attempts - 1].FinalOutput? {
      var text := s.finals[wf.attempts - 1].text;
      var wf2 := wf1.(verdict := Some(text.passes));
      InvFrame(env, max, s, wf1, wf2);
      FiledKeeps(env, max, s, wf2, text);
      var filed := FiledReview(env, wf2, text);
      if filed.Go? {
        JudgedKeeps(env, max, s, filed.wf, text);
      }
    }
  }

  lemma AttemptKeeps(env: Env, max: int, s: Scenario, wf: Wf)
    requires Inv(env, max, s, wf) && (wf.attempts == 0 || wf.attempts < max)
    ensures
      var review := Attempt(env, max, s, wf);
      && (review.Correct? ==> Inv(env, max, s, review.wf))
      && (review.Decided? ==> Ending(env, max, s, review.flow.wf, review.flow.status))
  {
    hide Ending, Reviewed, Refusal, Quiet, HeadSettled, WithinBudget, GuardsExact, Steady, GoodEntry, RunEntryRecord;
    GuardedKeeps(env, max, s, wf, FinalGate);
    var guarded := Guarded(env, wf, FinalGate);
    if guarded.Go? {
      var current := guarded.wf.(attempts := wf.attempts + 1);
      InvFrame(env, max, s, guarded.wf, current);
      ReviewedKeeps(env, max, s, current);
    } else {
      InvEnds(env, max, s, guarded.wf, Stopped);
    }
  }

  // ---- the loops ----

  lemma {:induction false} PhaseGatesKeep(env: Env, max: int, s: Scenario, wf: Wf, todo: seq<Phase>)
    requires Inv(env, max, s, wf) && wf.attempts == 0
    requires Distinct(todo) && forall p | p in todo :: Used(wf, p) == 0
    ensures
      var flow := PhaseGates(env, max, s, wf, todo);
      if flow.Go? then Inv(env, max, s, flow.wf) && flow.wf.attempts == 0
      else Ending(env, max, s, flow.wf, flow.status)
    decreases |todo|
  {
    hide Inv, Ending, Refusal, RunPhase, Charge, Numbered;
    if todo != [] {
      DistinctHead(todo);
      var p := todo[0];
      GuardedKeeps(env, max, s, wf, PhaseGate);
      var guarded := Guarded(env, wf, PhaseGate);
      if p !in s.gates {
        InvEnds(env, max, s, wf, Errored);
      } else if guarded.Stop? {
        InvEnds(env, max, s, guarded.wf, Stopped);
      } else {
        RanKeeps(env, max, s, guarded.wf, p, Initial, max, s.gates[p]);
        var ran := Ran(env, guarded.wf, p, Initial, max, s.gates[p]);
        if LastResult(ran).status.Completed? {
          forall q | q in todo[1..] ensures Used(ran, q) == 0 {
            assert q in Members(todo[1..]) && q in todo && q != p;
          }
          PhaseGatesKeep(env, max, s, ran, todo[1..]);
        }
      }
    }
  }

  lemma GuardedEnds(env: Env, max: int, s: Scenario, wf: Wf)
    requires Inv(env, max, s, wf) && (wf.attempts <= 1 || wf.attempts <= max)
    ensures Ending(env, max, s, wf, Stopped) && Ending(env, max, s, wf, Errored) && Ending(env, max, s, wf, Escalated)
  {
    hide Inv, Ending;
    InvEnds(env, max, s, wf, Stopped);
    InvEnds(env, max, s, wf, Errored);
    InvEnds(env, max, s, wf, Escalated);
  }

  /** One correction, as it ends: gone on to the next with its answers tabled, or over. */
  lemma CorrectionKeeps(env: Env, max: int, s: Scenario, wf: Wf, p: Phase, script: Script, ids: seq<FindingId>)
    requires Inv(env, max, s, wf) && (wf.attempts <= 1 || wf.attempts <= max) && Used(wf, p) < max
    ensures
      var ran := Ran(env, wf, p, Correction(wf.attempts), max - Used(wf, p), script);
      var rows := CorrectedRows(wf.attempts, p, ids, Resolutions(LastResult(ran)));
      && ran.attempts == wf.attempts && Ending(env, max, s, ran, Errored)
      && if LastResult(ran).status.Completed? then Inv(env, max, s, ran.(corrected := ran.corrected + rows))
         else Ending(env, max, s, ran, LastResult(ran).status)
  {
    hide Inv, Ending, Ran, CorrectedRows, Resolutions, LastResult;
    RanKeeps(env, max, s, wf, p, Correction(wf.attempts), max - Used(wf, p), script);
    var ran := Ran(env, wf, p, Correction(wf.attempts), max - Used(wf, p), script);
    if LastResult(ran).status.Completed? {
      InvEnds(env, max, s, ran, Errored);
      var rows := CorrectedRows(wf.attempts, p, ids, Resolutions(LastResult(ran)));
      SameButCorrected(env, max, s, ran, ran.(corrected := ran.corrected + rows));
    }
  }

  lemma {:induction false} CorrectionsKeep(env: Env, max: int, s: Scenario, wf: Wf, routed: seq<(FindingId, Phase)>,
                                           todo: seq<Phase>)
    requires Inv(env, max, s, wf) && (wf.attempts <= 1 || wf.attempts <= max)
    ensures
      var flow := Corrections(env, max, s, wf, routed, todo);
      if flow.Go? then Inv(env, max, s, flow.wf) else Ending(env, max, s, flow.wf, flow.status)
    decreases |todo|
  {
    hide Inv, Ending, Refusal, Ran, Bridged, CorrectedRows, IdsOf, Resolutions, LastResult;
    if todo != [] {
      var p := todo[0];
      GuardedKeeps(env, max, s, wf, CorrectionGate);
      var guarded := Guarded(env, wf, CorrectionGate);
      GuardedEnds(env, max, s, guarded.wf);
      if guarded.Go? && Used(wf, p) < max && (p, wf.attempts) in s.corrections {
        var script := s.corrections[(p, wf.attempts)];
        CorrectionKeeps(env, max, s, guarded.wf, p, script, IdsOf(routed, p));
        var ran := Ran(env, guarded.wf, p, Correction(wf.attempts), max - Used(wf, p), script);
        var result := LastResult(ran);
        if result.status.Completed? {
          var rows := CorrectedRows(wf.attempts, p, IdsOf(routed, p), Resolutions(result));
          CorrectionsKeep(env, max, s, ran.(corrected := ran.corrected + rows), routed, todo[1..]);
        }
      }
    }
  }

  lemma SameButCorrected(env: Env, max: int, s: Scenario, wf: Wf, wf': Wf)
    requires Inv(env, max, s, wf) && wf' == wf.(corrected := wf'.corrected)
    ensures Inv(env, max, s, wf')
  {
    hide Quiet, HeadSettled, WithinBudget, GuardsExact, Steady, GoodEntry, RunEntryRecord;
    InvFrame(env, max, s, wf, wf');
  }

  lemma {:induction false} RevalidationsKeep(env: Env, max: int, s: Scenario, wf: Wf, todo: seq<Phase>)
    requires Inv(env, max, s, wf) && (wf.attempts <= 1 || wf.attempts <= max)
    ensures
      var flow := Revalidations(env, max, s, wf, todo);
      if flow.Go? then Inv(env, max, s, flow.wf) else Ending(env, max, s, flow.wf, flow.status)
    decreases |todo|
  {
    hide Inv, Ending, Refusal, Ran, LastResult;
    if todo != [] {
      var p := todo[0];
      GuardedKeeps(env, max, s, wf, RevalidationGate);
      var guarded := Guarded(env, wf, RevalidationGate);
      GuardedEnds(env, max, s, guarded.wf);
      if guarded.Go? && Used(wf, p) < max && (p, wf.attempts) in s.revalidations {
        var script := s.revalidations[(p, wf.attempts)];
        RanKeeps(env, max, s, guarded.wf, p, Revalidation(wf.attempts), max - Used(wf, p), script);
        var ran := Ran(env, guarded.wf, p, Revalidation(wf.attempts), max - Used(wf, p), script);
        if LastResult(ran).status.Completed? {
          RevalidationsKeep(env, max, s, ran, todo[1..]);
        }
      }
    }
  }

  lemma {:induction false} FinalLoopKeeps(env: Env, max: int, s: Scenario, wf: Wf)
    requires Inv(env, max, s, wf) && (wf.attempts == 0 || wf.attempts < max)
    ensures
      var flow := FinalLoop(env, max, s, wf);
      Ending(env, max, s, flow.wf, flow.status)
    decreases max - wf.attempts
  {
    hide Inv, Ending, Attempt, Corrections, Revalidations, Responsible, Owners;
    AttemptKeeps(env, max, s, wf);
    var review := Attempt(env, max, s, wf);
    if review.Correct? {
      var responsible := Responsible(s.phases, Owners(review.routed));
      CorrectionsKeep(env, max, s, review.wf, review.routed, responsible);
      var corrected := Corrections(env, max, s, review.wf, review.routed, responsible);
      if corrected.Go? {
        RevalidationsKeep(env, max, s, corrected.wf, Downstream(env.risk, responsible, s.phases));
        var flow := Revalidations(env, max, s, corrected.wf, Downstream(env.risk, responsible, s.phases));
        if flow.Go? {
          FinalLoopKeeps(env, max, s, flow.wf);
        }
      }
    }
  }

  lemma OpenedIsGood(env: Env, max: int, s: Scenario)
    ensures Inv(env, max, s, Opened(env, s))
  {
    hide RunEntryRecord, Steady, GoodEntry;
  }

  /** Every run, whatever its agents answer and however it ends: decision safety, the budgets of
      every round, and guards exact at all four sites. */
  lemma WorkflowKeeps(env: Env, max: int, s: Scenario)
    requires Distinct(s.phases)
    ensures
      var flow := RunWorkflow(env, max, s);
      Ending(env, max, s, flow.wf, flow.status)
  {
    hide Inv, Ending, PhaseGates, FinalLoop;
    OpenedIsGood(env, max, s);
    PhaseGatesKeep(env, max, s, Opened(env, s), s.phases);
    var gated := PhaseGates(env, max, s, Opened(env, s), s.phases);
    if gated.Go? {
      FinalLoopKeeps(env, max, s, gated.wf);
    }
  }

  /** Once any record filed by an agent blocks, the run ends BLOCKED or ERROR, and the only dispatch
      that may follow is the very next one, the Reviewer of that record's own round, when the record
      is a Worker's and the level is above LOW. A run that completes
      holds no such record, and its last Final Review passed. */
  lemma DecisionSafety(env: Env, max: int, s: Scenario)
    requires Distinct(s.phases)
    ensures
      var end := RunWorkflow(env, max, s);
      && (forall i | 1 <= i < |end.wf.ledger| && IsBlocking(end.wf.ledger[i]) ::
            end.status in {Stopped, Errored} && OnlyVerified(env, end.wf.ledger[i], i, end.wf.dispatches))
      && (end.status.Completed? ==>
            end.wf.verdict == Some(true) && forall i | 1 <= i < |end.wf.ledger| :: !IsBlocking(end.wf.ledger[i]))
  {
    hide RunWorkflow, IsBlocking, OnlyVerified, WithinBudget, GuardsExact, Steady, GoodEntry;
    WorkflowKeeps(env, max, s);
  }

  /** No phase is charged beyond `max`, nor for anything but its own rounds; every correction and
      revalidation got all that was left of its phase's budget, at least one iteration. */
  lemma BudgetsHold(env: Env, max: int, s: Scenario)
    requires Distinct(s.phases)
    ensures
      var wf := RunWorkflow(env, max, s).wf;
      WithinBudget(env, max, wf) && (wf.attempts <= 1 || wf.attempts <= max)
  {
    hide RunWorkflow, Safe, WithinBudget, GuardsExact, Steady, GoodEntry;
    WorkflowKeeps(env, max, s);
  }

  /** Under every contract that reads no field the harness writes and accepts its run-entry record,
      each guard refuses exactly the ledgers holding an agent's record without a reason code; so
      when every agent writes one, all four sites admit every round of the run. */
  lemma GuardsRefuseMissingCodesOnly(env: Env, max: int, s: Scenario)
    requires Distinct(s.phases) && Steady(env) && GoodEntry(env, Entry(env, s))
    ensures
      var end := RunWorkflow(env, max, s);
      && GuardsExact(end.wf)
      && (end.cause.GuardRefused? ==> end.cause.reason == InputMalformed && !AllCarry(end.wf.ledger))
      && (AllCarry(end.wf.ledger) ==> forall k | 0 <= k < |end.wf.guards| :: end.wf.guards[k].refusal.None?)
  {
    hide RunWorkflow, Safe, WithinBudget, Steady, GoodEntry, AllCarry;
    WorkflowKeeps(env, max, s);
    var end := RunWorkflow(env, max, s);
    forall k | 0 <= k < |end.wf.guards| && AllCarry(end.wf.ledger) ensures end.wf.guards[k].refusal.None? {
      PrefixCarries(end.wf.ledger, end.wf.guards[k].seen);
    }
  }

  lemma PrefixCarries(ledger: seq<Record>, n: nat)
    requires AllCarry(ledger) && n <= |ledger|
    ensures AllCarry(ledger[..n])
  {
  }
}
